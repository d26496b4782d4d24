/**
 * The simulation clock of `Simulator` (src/sim/simulator.py): simulated time,
 * the run / pause / rewind state, and the pacing of simulated time against the
 * wall clock.
 *
 * The wall clock is an input `now` (one reading per call), the orbit
 * propagator and the ISO-8601 rendering of a timestamp are functions the
 * simulator is constructed with, and dispatching an event appends it to the
 * simulator's event log. The state transitions are first given as functions
 * on a `Clock` value; the class `Simulator` updates its fields in place and is
 * proved to follow those functions.
 */
module Simulation {
  import opened Prelude
  import opened Messages

  /** Step size used when a start command carries none, or a non-positive one. */
  const DefaultStepSize: int := 10
  /** Replay speed used when a start command carries none. */
  const DefaultReplaySpeed: real := 1.0
  /** Each advancing step publishes `simulation.step_forward` with counters 3, 2, 1, 0. */
  const StepForwardCount: nat := 4

  /** The orbit propagator at a whole UTC second: (longitude, latitude, altitude in km). */
  type Propagator = int -> (real, real, real)
  /** `datetime.fromtimestamp(t).isoformat()`, which depends on the host's time zone. */
  type IsoFormat = real -> string

  /** The fields of a simulator that its methods change. */
  datatype Clock = Clock(
    utcgTime: real,          // simulated UTC time, seconds since the Unix epoch
    epochSeconds: int,       // simulated seconds elapsed since t0
    startTime: Option<real>, // wall-clock anchor of pacing
    running: bool,
    rewindPending: bool,     // a reset command waits for the end of the step
    timeStep: int,           // simulated seconds per advancing step
    timingMode: real)        // replay speed; 0 runs as fast as possible

  /** Python's truth value of `start_time`: neither `None` nor zero. */
  predicate Anchored(start: Option<real>) {
    start.Some? && start.value != 0.0
  }

  /** `reset`: simulated time back to t0, not running, no pacing anchor, nothing pending. */
  function Rewound(c: Clock, t0: real): Clock {
    c.(utcgTime := t0, epochSeconds := 0, startTime := None, running := false, rewindPending := false)
  }

  /**
   * `set_sim_speed`: clamps the step size and the replay speed and moves the
   * pacing anchor so that simulated time is exactly where pacing says it
   * should be at `now`.
   */
  function WithSpeed(c: Clock, stepSize: int, replaySpeed: real, now: real): (r: Clock)
    ensures r.timeStep > 0 && r.timingMode >= 0.0
    ensures r.timeStep == (if stepSize > 0 then stepSize else DefaultStepSize)
    ensures r.timingMode == (if replaySpeed > 0.0 then replaySpeed else 0.0)
    ensures r.timingMode > 0.0 ==>
      r.startTime.Some? && (now - r.startTime.value) * r.timingMode == r.epochSeconds as real
    ensures r.timingMode == 0.0 ==> r.startTime == Some(now)
    ensures r.(startTime := c.startTime, timeStep := c.timeStep, timingMode := c.timingMode) == c
  {
    var step := if stepSize > 0 then stepSize else DefaultStepSize;
    var mode := if replaySpeed > 0.0 then replaySpeed else 0.0;
    c.(timeStep := step, timingMode := mode,
       startTime := Some(now - (if mode > 0.0 then c.epochSeconds as real / mode else 0.0)))
  }

  /** `on_command`: what one `simulation.command` event does to the clock. */
  function AfterCommand(c: Clock, cmd: SimCommand, now: real): (r: Clock)
    ensures r.utcgTime == c.utcgTime && r.epochSeconds == c.epochSeconds
    ensures r.running <==> cmd.command == "start" || (c.running && cmd.command != "pause" && cmd.command != "reset")
    ensures r.rewindPending <==> c.rewindPending || cmd.command == "reset"
    ensures cmd.command == "start" ==>
      var p := cmd.parameters.GetOr(NoParams);
      r == WithSpeed(c, p.stepSizeSeconds.GetOr(DefaultStepSize), p.replaySpeed.GetOr(DefaultReplaySpeed), now)
             .(running := true)
    ensures cmd.command != "start" ==>
      r.timeStep == c.timeStep && r.timingMode == c.timingMode && r.startTime == c.startTime
  {
    if cmd.command == "start" then
      var p := cmd.parameters.GetOr(NoParams);
      WithSpeed(c, p.stepSizeSeconds.GetOr(DefaultStepSize), p.replaySpeed.GetOr(DefaultReplaySpeed), now)
        .(running := true)
    else if cmd.command == "pause" then
      c.(running := false)
    else if cmd.command == "reset" then
      c.(running := false, rewindPending := true)
    else
      c
  }

  /** A batch of commands handled one after the other, first to last. */
  function AfterCommands(c: Clock, cmds: seq<SimCommand>, now: real): Clock
    decreases |cmds|
  {
    if cmds == [] then c
    else AfterCommand(AfterCommands(c, cmds[..|cmds| - 1], now), cmds[|cmds| - 1], now)
  }

  /** The `simulation.step_forward` events with counters n-1 down to 0. */
  function StepForwards(n: nat, time: real, epsec: int): seq<Event> {
    if n == 0 then [] else [StepForward(n - 1, time, epsec)] + StepForwards(n - 1, time, epsec)
  }

  /** `_publish_satellite_ground_position`: the propagator is read at `int(utcg_time)`. */
  function PositionEvent(propagate: Propagator, isoFormat: IsoFormat, orbitTime: real, utcg: real, epsec: int): Event {
    var fix := propagate(Trunc(orbitTime));
    GroundPosition(PositionData(Some(fix.0), Some(fix.1), Some(fix.2)), isoFormat(utcg), epsec)
  }

  /** The clock after a step, the events the step dispatched, and whether it returned `False`. */
  datatype StepResult = StepResult(clock: Clock, events: seq<Event>, gated: bool)

  /** The pacing anchor a running step uses: `start_time`, or `now` if it was unset. */
  function AnchorAt(c: Clock, now: real): real {
    if Anchored(c.startTime) then c.startTime.value else now
  }

  /** Wall time elapsed since the pacing anchor, scaled by the replay speed. */
  function PacedTime(c: Clock, now: real): real {
    (now - AnchorAt(c, now)) * c.timingMode
  }

  /** The pacing gate: with a non-zero speed, simulated time may not run ahead of scaled wall time. */
  predicate HeldBack(c: Clock, now: real) {
    c.timingMode != 0.0 && PacedTime(c, now) < c.epochSeconds as real
  }

  /** A pending rewind is honoured once the step has done its work. */
  function Finish(c: Clock, t0: real): Clock {
    if c.rewindPending then Rewound(c, t0) else c
  }

  /**
   * The body of `if self.sim_is_running:` in `sim_step`: anchor pacing if
   * unanchored; held back by the pacing gate, or advance one time step and
   * publish.
   */
  function Advanced(c: Clock, t0: real, now: real, propagate: Propagator, isoFormat: IsoFormat): (r: StepResult)
    ensures !c.running ==> r == StepResult(c, [], false)
    ensures r.gated <==> c.running && HeldBack(c, now)
  {
    if !c.running then
      StepResult(c, [], false)
    else
      var anchored := c.(startTime := Some(AnchorAt(c, now)));
      if HeldBack(c, now) then
        StepResult(anchored, [], true)
      else
        var e := c.epochSeconds + c.timeStep;
        var u := t0 + e as real;
        StepResult(anchored.(epochSeconds := e, utcgTime := u),
                   StepForwards(StepForwardCount, u, e) + [PositionEvent(propagate, isoFormat, u, u, e)],
                   false)
  }

  /** `sim_step` after the tick: advance if running; unless held back, then honour a pending rewind. */
  function AfterTick(c: Clock, t0: real, now: real, propagate: Propagator, isoFormat: IsoFormat): StepResult {
    var a := Advanced(c, t0, now, propagate, isoFormat);
    if a.gated then a else a.(clock := Finish(a.clock, t0))
  }

  /**
   * `sim_step` as a whole. The tick is dispatched first, carrying the time
   * before the step; its subscribers answer synchronously with the commands in
   * `replies`, which are handled in order before the clock looks at whether it
   * is running.
   */
  function Stepped(c: Clock, t0: real, now: real, replies: seq<SimCommand>,
                   propagate: Propagator, isoFormat: IsoFormat): (r: StepResult)
  {
    var r := AfterTick(AfterCommands(c, replies, now), t0, now, propagate, isoFormat);
    StepResult(r.clock, [Tick(c.utcgTime, c.epochSeconds)] + r.events, r.gated)
  }

  // ---------------------------------------------------------------------------
  // Properties of the clock

  /** The step-forward burst has n events whose counters count down to 0. */
  lemma {:induction false} StepForwardsAt(n: nat, time: real, epsec: int)
    ensures |StepForwards(n, time, epsec)| == n
    ensures forall k :: 0 <= k < n ==> StepForwards(n, time, epsec)[k] == StepForward(n - 1 - k, time, epsec)
  {
    if n > 0 {
      StepForwardsAt(n - 1, time, epsec);
    }
  }

  /** Commands never move simulated time, and never withdraw a pending rewind. */
  lemma {:induction false} CommandsKeepTime(c: Clock, cmds: seq<SimCommand>, now: real)
    ensures AfterCommands(c, cmds, now).utcgTime == c.utcgTime
    ensures AfterCommands(c, cmds, now).epochSeconds == c.epochSeconds
    ensures c.rewindPending ==> AfterCommands(c, cmds, now).rewindPending
    decreases |cmds|
  {
    if cmds != [] {
      CommandsKeepTime(c, cmds[..|cmds| - 1], now);
    }
  }

  /** Every step dispatches exactly one tick, first, carrying the time before the step. */
  lemma TickComesFirst(c: Clock, t0: real, now: real, replies: seq<SimCommand>, propagate: Propagator, isoFormat: IsoFormat)
    ensures var r := Stepped(c, t0, now, replies, propagate, isoFormat);
      |r.events| >= 1 && r.events[0] == Tick(c.utcgTime, c.epochSeconds) &&
      forall i :: 0 < i < |r.events| ==> !r.events[i].Tick?
  {
    var m := AfterCommands(c, replies, now);
    var u := t0 + (m.epochSeconds + m.timeStep) as real;
    StepForwardsAt(StepForwardCount, u, m.epochSeconds + m.timeStep);
  }

  /** A step that finds the clock stopped publishes nothing and leaves time alone unless a rewind is pending. */
  lemma IdleStep(c: Clock, t0: real, now: real, replies: seq<SimCommand>, propagate: Propagator, isoFormat: IsoFormat)
    requires !AfterCommands(c, replies, now).running
    ensures var r := Stepped(c, t0, now, replies, propagate, isoFormat);
      && r.events == [Tick(c.utcgTime, c.epochSeconds)]
      && !r.gated
      && (!AfterCommands(c, replies, now).rewindPending ==>
            r.clock.utcgTime == c.utcgTime && r.clock.epochSeconds == c.epochSeconds)
      && (AfterCommands(c, replies, now).rewindPending ==> r.clock.epochSeconds == 0 && r.clock.utcgTime == t0)
  {
    CommandsKeepTime(c, replies, now);
  }

  /**
   * The pacing gate: a step returns `False` exactly when, after the tick's
   * commands, the clock is running at a non-zero speed and simulated time is
   * ahead of scaled wall time since the anchor.
   */
  lemma PacingGate(c: Clock, t0: real, now: real, replies: seq<SimCommand>, propagate: Propagator, isoFormat: IsoFormat)
    ensures var m := AfterCommands(c, replies, now);
      Stepped(c, t0, now, replies, propagate, isoFormat).gated <==>
        m.running && m.timingMode != 0.0 && PacedTime(m, now) < c.epochSeconds as real
  {
    CommandsKeepTime(c, replies, now);
    GatedWhenHeldBack(AfterCommands(c, replies, now), t0, now, propagate, isoFormat);
  }

  lemma GatedWhenHeldBack(m: Clock, t0: real, now: real, propagate: Propagator, isoFormat: IsoFormat)
    ensures AfterTick(m, t0, now, propagate, isoFormat).gated == (m.running && HeldBack(m, now))
  {
  }

  /** A step held back by the pacing gate publishes nothing, moves no time and leaves a pending rewind pending. */
  lemma HeldBackStep(c: Clock, t0: real, now: real, replies: seq<SimCommand>, propagate: Propagator, isoFormat: IsoFormat)
    requires Stepped(c, t0, now, replies, propagate, isoFormat).gated
    ensures var r := Stepped(c, t0, now, replies, propagate, isoFormat);
      && r.events == [Tick(c.utcgTime, c.epochSeconds)]
      && r.clock.epochSeconds == c.epochSeconds && r.clock.utcgTime == c.utcgTime
      && r.clock.rewindPending == AfterCommands(c, replies, now).rewindPending && r.clock.running
  {
    CommandsKeepTime(c, replies, now);
  }

  /** Pacing never overruns: a step that advances at speed s started no later than s times the elapsed wall time. */
  lemma PacingNeverOverruns(c: Clock, t0: real, now: real, replies: seq<SimCommand>, propagate: Propagator, isoFormat: IsoFormat)
    requires AfterCommands(c, replies, now).running
    requires AfterCommands(c, replies, now).timingMode != 0.0
    requires !Stepped(c, t0, now, replies, propagate, isoFormat).gated
    ensures c.epochSeconds as real <= PacedTime(AfterCommands(c, replies, now), now)
  {
    CommandsKeepTime(c, replies, now);
  }

  /** A free-running clock (speed 0) is never held back. */
  lemma FreeRunningNeverGated(c: Clock, t0: real, now: real, replies: seq<SimCommand>, propagate: Propagator, isoFormat: IsoFormat)
    requires AfterCommands(c, replies, now).timingMode == 0.0
    ensures !Stepped(c, t0, now, replies, propagate, isoFormat).gated
  {
  }

  /**
   * An advancing step adds exactly one time step, keeps `utcg_time = t0 +
   * currentTime_EpSec`, dispatches the tick, four step-forward events with
   * counters 3, 2, 1, 0 and one ground position, in that order; a pending
   * rewind is honoured only after that publication.
   */
  lemma AdvancingStep(c: Clock, t0: real, now: real, replies: seq<SimCommand>, propagate: Propagator, isoFormat: IsoFormat)
    requires AfterCommands(c, replies, now).running
    requires !Stepped(c, t0, now, replies, propagate, isoFormat).gated
    ensures var m := AfterCommands(c, replies, now);
      var r := Stepped(c, t0, now, replies, propagate, isoFormat);
      var e := c.epochSeconds + m.timeStep;
      var u := t0 + e as real;
      && |r.events| == 6
      && r.events[0] == Tick(c.utcgTime, c.epochSeconds)
      && (forall k :: 1 <= k <= 4 ==> r.events[k] == StepForward(4 - k, u, e))
      && r.events[5] == PositionEvent(propagate, isoFormat, u, u, e)
      && (m.rewindPending ==> r.clock == Rewound(m, t0))
      && (!m.rewindPending ==> r.clock.epochSeconds == e && r.clock.utcgTime == u && r.clock.running)
      && r.clock.timeStep == m.timeStep && r.clock.timingMode == m.timingMode
      && (!m.rewindPending ==> r.clock.startTime == Some(AnchorAt(m, now)))
  {
    CommandsKeepTime(c, replies, now);
    var m := AfterCommands(c, replies, now);
    var e := c.epochSeconds + m.timeStep;
    StepForwardsAt(StepForwardCount, t0 + e as real, e);
  }

  /**
   * A start command handled during the tick re-anchors pacing at `now`, so
   * that very step passes the pacing gate and advances: starting never makes
   * simulated time jump, and never makes it wait. (An anchor of exactly 0.0
   * would read as unset in Python and be replaced by `now`.)
   */
  lemma {:induction false} StartAdvancesAtOnce(c: Clock, t0: real, now: real, replies: seq<SimCommand>,
                                               propagate: Propagator, isoFormat: IsoFormat)
    requires |replies| > 0 && replies[|replies| - 1].command == "start"
    requires AfterCommands(c, replies, now).startTime != Some(0.0)
    ensures var r := Stepped(c, t0, now, replies, propagate, isoFormat);
      !r.gated && |r.events| == 6 && r.events[5].GroundPosition?
  {
    var m0 := AfterCommands(c, replies[..|replies| - 1], now);
    var m := AfterCommands(c, replies, now);
    assert m.running && m.epochSeconds == m0.epochSeconds;
    if m.timingMode != 0.0 {
      assert m.timingMode > 0.0;
      assert m.startTime.Some? && (now - m.startTime.value) * m.timingMode == m.epochSeconds as real;
      assert AnchorAt(m, now) == m.startTime.value;
    }
    assert !HeldBack(m, now);
    AdvancingStep(c, t0, now, replies, propagate, isoFormat);
  }

  /**
   * A reset command handled during the tick stops the clock at once, so the
   * step publishes no position and ends with the clock rewound to t0.
   */
  lemma ResetSuppressesStep(c: Clock, t0: real, now: real, replies: seq<SimCommand>,
                            propagate: Propagator, isoFormat: IsoFormat)
    requires |replies| > 0 && replies[|replies| - 1].command == "reset"
    ensures var r := Stepped(c, t0, now, replies, propagate, isoFormat);
      && r.events == [Tick(c.utcgTime, c.epochSeconds)]
      && r.clock == Rewound(AfterCommands(c, replies, now), t0)
      && !r.clock.running && r.clock.epochSeconds == 0 && r.clock.utcgTime == t0
  {
  }

  /** Steps taken one after the other at the wall times `nows`, with no commands arriving. */
  function Run(c: Clock, t0: real, nows: seq<real>, propagate: Propagator, isoFormat: IsoFormat): (Clock, seq<Event>)
    decreases |nows|
  {
    if nows == [] then (c, [])
    else
      var r := Stepped(c, t0, nows[0], [], propagate, isoFormat);
      var rest := Run(r.clock, t0, nows[1..], propagate, isoFormat);
      (rest.0, r.events + rest.1)
  }

  /** The `time_epsec` of every ground-position event, in publication order. */
  function PositionTimes(evs: seq<Event>): seq<int> {
    if evs == [] then []
    else (if evs[0].GroundPosition? then [evs[0].timeEpsec] else []) + PositionTimes(evs[1..])
  }

  lemma {:induction false} PositionTimesAppend(a: seq<Event>, b: seq<Event>)
    ensures PositionTimes(a + b) == PositionTimes(a) + PositionTimes(b)
  {
    if a == [] {
      assert a + b == b;
    } else {
      assert (a + b)[0] == a[0];
      assert (a + b)[1..] == a[1..] + b;
      PositionTimesAppend(a[1..], b);
    }
  }

  /** `t + s, t + 2s, …, t + n·s`. */
  function Arithmetic(t: int, s: int, n: nat): seq<int>
    decreases n
  {
    if n == 0 then [] else [t + s] + Arithmetic(t + s, s, n - 1)
  }

  /** The step-forward burst carries no ground position. */
  lemma {:induction false} StepForwardsNoPosition(n: nat, time: real, epsec: int)
    ensures PositionTimes(StepForwards(n, time, epsec)) == []
  {
    if n > 0 {
      StepForwardsNoPosition(n - 1, time, epsec);
      PositionTimesAppend([StepForward(n - 1, time, epsec)], StepForwards(n - 1, time, epsec));
    }
  }

  /** One free-running step with no commands: one time step later, one ground position, still free running. */
  lemma FreeStep(c: Clock, t0: real, now: real, propagate: Propagator, isoFormat: IsoFormat)
    requires c.running && c.timingMode == 0.0 && !c.rewindPending
    ensures var r := Stepped(c, t0, now, [], propagate, isoFormat);
      && r.clock.running && r.clock.timingMode == 0.0 && !r.clock.rewindPending
      && r.clock.timeStep == c.timeStep
      && r.clock.epochSeconds == c.epochSeconds + c.timeStep
      && r.clock.utcgTime == t0 + r.clock.epochSeconds as real
      && PositionTimes(r.events) == [c.epochSeconds + c.timeStep]
  {
    var e := c.epochSeconds + c.timeStep;
    var u := t0 + e as real;
    var r := Stepped(c, t0, now, [], propagate, isoFormat);
    var burst := StepForwards(StepForwardCount, u, e);
    var pos := PositionEvent(propagate, isoFormat, u, u, e);
    assert r.events == [Tick(c.utcgTime, c.epochSeconds)] + burst + [pos];
    StepForwardsNoPosition(StepForwardCount, u, e);
    PositionTimesAppend([Tick(c.utcgTime, c.epochSeconds)] + burst, [pos]);
    PositionTimesAppend([Tick(c.utcgTime, c.epochSeconds)], burst);
  }

  lemma OneMoreStep(n: int, s: int)
    ensures n * s == s + (n - 1) * s
  {
  }

  /**
   * Free running (speed 0, no rewind pending, no commands): n steps advance
   * simulated time by n time steps and publish n ground positions, at each
   * intermediate time, in order.
   */
  lemma {:induction false} FreeRun(c: Clock, t0: real, nows: seq<real>, propagate: Propagator, isoFormat: IsoFormat)
    requires c.running && c.timingMode == 0.0 && !c.rewindPending
    ensures var r := Run(c, t0, nows, propagate, isoFormat);
      && r.0.epochSeconds == c.epochSeconds + |nows| * c.timeStep
      && (|nows| > 0 ==> r.0.utcgTime == t0 + r.0.epochSeconds as real)
      && PositionTimes(r.1) == Arithmetic(c.epochSeconds, c.timeStep, |nows|)
    decreases |nows|
  {
    if nows != [] {
      var r := Stepped(c, t0, nows[0], [], propagate, isoFormat);
      FreeStep(c, t0, nows[0], propagate, isoFormat);
      FreeRun(r.clock, t0, nows[1..], propagate, isoFormat);
      var rest := Run(r.clock, t0, nows[1..], propagate, isoFormat);
      PositionTimesAppend(r.events, rest.1);
      OneMoreStep(|nows|, c.timeStep);
    }
  }

  /** Free running from t0 with a 10-second step: five steps end at t0 + 50 s after publishing at 10, 20, 30, 40 and 50 s. */
  lemma FiveFreeSteps(c: Clock, t0: real, nows: seq<real>, propagate: Propagator, isoFormat: IsoFormat)
    requires c.running && c.timingMode == 0.0 && !c.rewindPending
    requires c.epochSeconds == 0 && c.timeStep == 10 && |nows| == 5
    ensures var r := Run(c, t0, nows, propagate, isoFormat);
      && r.0.epochSeconds == 50 && r.0.utcgTime == t0 + 50.0
      && PositionTimes(r.1) == [10, 20, 30, 40, 50]
  {
    FreeRun(c, t0, nows, propagate, isoFormat);
  }

  // ---------------------------------------------------------------------------
  // The simulator object

  class Simulator {
    const name: string
    const simT0: real
    const propagate: Propagator
    const isoFormat: IsoFormat

    var utcgTime: real
    var epochSeconds: int
    var startTime: Option<real>
    var running: bool
    var rewindPending: bool
    var timeStep: int
    var timingMode: real
    /** Every event dispatched so far, oldest first. */
    var events: seq<Event>

    function State(): Clock
      reads this
    {
      Clock(utcgTime, epochSeconds, startTime, running, rewindPending, timeStep, timingMode)
    }

    /** Simulated UTC time is always t0 plus the simulated seconds elapsed. */
    ghost predicate Valid()
      reads this
    {
      utcgTime == simT0 + epochSeconds as real
    }

    /** `__init__`: t0 defaults to the wall clock; the step size and speed are taken as given. */
    constructor (name: string, t0: Option<real>, timingMode: real, timeStep: int,
                 propagate: Propagator, isoFormat: IsoFormat, now: real)
      ensures Valid()
      ensures this.name == name && simT0 == t0.GetOr(now)
      ensures this.propagate == propagate && this.isoFormat == isoFormat
      ensures utcgTime == simT0 && epochSeconds == 0 && startTime == None
      ensures !running && !rewindPending
      ensures this.timeStep == timeStep && this.timingMode == timingMode
      ensures events == []
    {
      this.name := name;
      this.propagate := propagate;
      this.isoFormat := isoFormat;
      this.timingMode := timingMode;
      this.timeStep := timeStep;
      simT0 := t0.GetOr(now);
      events := [];
      new;
      Reset();
    }

    /** `reset`: back to t0, stopped, unanchored, nothing pending; pacing settings kept. */
    method Reset()
      modifies this
      ensures Valid()
      ensures utcgTime == simT0 && epochSeconds == 0 && startTime == None
      ensures !running && !rewindPending
      ensures timeStep == old(timeStep) && timingMode == old(timingMode) && events == old(events)
      ensures State() == Rewound(old(State()), simT0)
    {
      utcgTime := simT0;
      epochSeconds := 0;
      startTime := None;
      running := false;
      rewindPending := false;
    }

    /** `set_sim_speed`: see `WithSpeed`. */
    method SetSimSpeed(stepSize: int, replaySpeed: real, now: real)
      requires Valid()
      modifies this
      ensures Valid() && events == old(events)
      ensures State() == WithSpeed(old(State()), stepSize, replaySpeed, now)
      ensures timeStep > 0 && timingMode >= 0.0
      ensures timingMode > 0.0 ==> startTime.Some? && (now - startTime.value) * timingMode == epochSeconds as real
    {
      if stepSize > 0 {
        timeStep := stepSize;
      } else {
        timeStep := DefaultStepSize;
      }
      if replaySpeed > 0.0 {
        timingMode := replaySpeed;
      } else {
        timingMode := 0.0;
      }
      startTime := Some(now - (if timingMode > 0.0 then epochSeconds as real / timingMode else 0.0));
    }

    /**
     * `on_command`: start applies the command's step size and speed (10 and
     * 1.0 when absent) and runs; pause stops; reset stops and asks for a
     * rewind at the end of the step; anything else changes nothing.
     */
    method OnCommand(cmd: SimCommand, now: real)
      requires Valid()
      modifies this
      ensures Valid() && events == old(events)
      ensures State() == AfterCommand(old(State()), cmd, now)
      ensures utcgTime == old(utcgTime) && epochSeconds == old(epochSeconds)
    {
      var command := cmd.command;
      if command == "start" {
        var p := cmd.parameters.GetOr(NoParams);
        SetSimSpeed(p.stepSizeSeconds.GetOr(DefaultStepSize), p.replaySpeed.GetOr(DefaultReplaySpeed), now);
        running := true;
      } else if command == "pause" {
        running := false;
      } else if command == "reset" {
        running := false;
        rewindPending := true;
      }
    }

    /** `tick`: dispatch `simulation.tick` with the current time. */
    method Tick()
      modifies this`events
      ensures events == old(events) + [Event.Tick(utcgTime, epochSeconds)]
    {
      events := events + [Event.Tick(utcgTime, epochSeconds)];
    }

    /**
     * `_publish_satellite_ground_position`: the propagator is read at the
     * simulator's own `utcg_time`; the argument only stamps the event.
     */
    method PublishGroundPosition(utcg: real, simTime: int)
      modifies this`events
      ensures events == old(events) + [PositionEvent(propagate, isoFormat, utcgTime, utcg, simTime)]
    {
      var fix := propagate(Trunc(utcgTime));
      var data := PositionData(Some(fix.0), Some(fix.1), Some(fix.2));
      events := events + [GroundPosition(data, isoFormat(utcg), simTime)];
    }

    /**
     * The tick's subscribers answer while the tick is being dispatched: each
     * `simulation.command` they send reaches `on_command`, in order.
     */
    method HandleReplies(replies: seq<SimCommand>, now: real)
      requires Valid()
      modifies this
      ensures Valid() && events == old(events)
      ensures State() == AfterCommands(old(State()), replies, now)
    {
      for i := 0 to |replies|
        invariant Valid() && events == old(events)
        invariant State() == AfterCommands(old(State()), replies[..i], now)
      {
        assert replies[..i + 1][..i] == replies[..i];
        OnCommand(replies[i], now);
      }
      assert replies[..|replies|] == replies;
    }

    /**
     * The `for i in range(3, -1, -1)` loop of `sim_step`: dispatch
     * `simulation.step_forward` with counters 3, 2, 1, 0.
     */
    method DispatchStepForwards(time: real, epsec: int)
      modifies this`events
      ensures events == old(events) + StepForwards(StepForwardCount, time, epsec)
    {
      ghost var burst := StepForwards(StepForwardCount, time, epsec);
      StepForwardsAt(StepForwardCount, time, epsec);
      for i := StepForwardCount downto 0
        invariant events == old(events) + burst[..StepForwardCount - i]
      {
        assert burst[..StepForwardCount - i] == burst[..StepForwardCount - i - 1] + [burst[StepForwardCount - i - 1]];
        events := events + [StepForward(i, time, epsec)];
      }
      assert burst[..StepForwardCount] == burst;
    }

    /**
     * The body of `if self.sim_is_running:` in `sim_step`; `gated` is its
     * early `return False`.
     */
    method AdvanceIfRunning(now: real) returns (gated: bool)
      requires Valid()
      modifies this
      ensures Valid()
      ensures var r := Advanced(old(State()), simT0, now, propagate, isoFormat);
        State() == r.clock && events == old(events) + r.events && gated == r.gated
    {
      gated := false;
      if running {
        if !Anchored(startTime) {
          startTime := Some(now);
        }
        if timingMode != 0.0 {
          if (now - startTime.value) * timingMode < epochSeconds as real {
            return true;
          }
        }
        Advance();
      }
    }

    /** One time step forward, then the step-forward burst and the ground position at the new time. */
    method Advance()
      requires Valid()
      modifies this
      ensures Valid()
      ensures epochSeconds == old(epochSeconds) + timeStep && utcgTime == simT0 + epochSeconds as real
      ensures State().(epochSeconds := old(epochSeconds), utcgTime := old(utcgTime)) == old(State())
      ensures events == old(events) + StepForwards(StepForwardCount, utcgTime, epochSeconds)
        + [PositionEvent(propagate, isoFormat, utcgTime, utcgTime, epochSeconds)]
    {
      epochSeconds := epochSeconds + timeStep;
      utcgTime := simT0 + epochSeconds as real;
      DispatchStepForwards(utcgTime, epochSeconds);
      PublishGroundPosition(utcgTime, epochSeconds);
    }

    /**
     * `sim_step`: tick; handle the commands the tick's subscribers send back;
     * if running, anchor pacing if unanchored, return `False` (`gated`) while
     * simulated time is ahead of scaled wall time, otherwise advance one time
     * step and publish; finally honour a pending rewind.
     */
    method SimStep(now: real, replies: seq<SimCommand>) returns (gated: bool)
      requires Valid()
      modifies this
      ensures Valid()
      ensures var r := Stepped(old(State()), simT0, now, replies, propagate, isoFormat);
        State() == r.clock && events == old(events) + r.events && gated == r.gated
    {
      Tick();
      HandleReplies(replies, now);
      gated := AdvanceIfRunning(now);
      if gated {
        return;
      }
      if rewindPending {
        rewindPending := false;
        Reset();
      }
    }
  }
}
