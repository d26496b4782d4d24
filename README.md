# FakeSat core, modelled in Dafny

FakeSat is a fake satellite. The satellite process (`src/sim/`) runs an orbit
simulator on a stepped clock. Every step publishes a tick on an in-process
bus. A step that finds the clock running and not held back by pacing then
advances simulated time and publishes:

- four `simulation.step_forward` events,
- one `satellite.ground_position` event.

A step of a stopped or held-back clock publishes only the tick.

Two subscribers listen on that bus:

- The GUI bridge polls the dashboard's command queue on every tick and turns
  `start`, `pause` and `stop` into simulator commands. It also pushes every
  ground position to the dashboard as telemetry.
- The camera caches the latest position in a dictionary shared with the
  imaging side.

The dashboard (`src/dashboard/simulation/`) is a small Django application:

- a JSON command queue (POST adds a command, GET drains the unconsumed ones in
  creation order),
- a telemetry endpoint that keeps one latest record per satellite,
- a listing of the latest records of the active satellites.

The Mapbox imaging provider computes, from the satellite's and a target's
geodetic positions, the elevation, pitch and bearing of the view. It refuses
targets seen below 30 degrees of elevation.

The project has one Dafny module per part:

| module | file | models |
|---|---|---|
| `Prelude` | prelude.dfy | `Option`, Python's `int()` on a float |
| `Messages` | messages.dfy | the payloads carried on the bus |
| `Simulation` | simulator.dfy | the clock as specification functions, and the `Simulator` class proved against them |
| `Gui` | gui.dfy | command routing on a tick, the telemetry payload |
| `CameraCache` | camera.dfy | the camera and the dictionary it shares |
| `Json` | json.dfy | decoded JSON, and Python's truthiness, `float()` and `int()` on it |
| `DashboardModels` | dashboard_models.dfy | the `Satellite`, `Telemetry` and `SimulationCommand` rows |
| `Replies` | replies.dfy | HTTP requests and JSON replies |
| `CommandViews` | command_views.dfy | the `commands` view and the command queue |
| `TelemetryViews` | telemetry_views.dfy | the `telemetry_ingest` and `telemetry_recent` views |
| `Viewing` | viewing.dfy | the viewing geometry of `get_target_image` |
| `Pipeline` | pipeline.dfy | properties across components: dashboard → GUI → clock, and GUI → dashboard |

The wall clock is a parameter of the model:

- A simulator step reads one `now: real`.
- A dashboard write is stamped with a `now` it is given.

The orbit propagator, the ISO-8601 formatting and parsing, and the
trigonometric functions are function-valued parameters. For trigonometry,
the lemmas assume only the laws they need (`Viewing.Lawful`). Commands that
tick subscribers send back are an input of the step (`replies`). They are
handled right after the tick, because dispatch on the bus is synchronous.

## Model

| member | source | states |
|---|---|---|
| Prelude.Trunc | src/sim/simulator.py:33 | `int(utcg_time)` truncates toward zero: the result is within 1 of the real, below it for non-negative reals and above it for negative ones |
| Json.PyFloat | src/dashboard/simulation/views.py:54-58 | `float()` of a JSON number is that number; `null`, a list or an object raise (no value) |
| Json.PyInt | src/dashboard/simulation/views.py:169-177 | `int()` of a JSON number truncates it toward zero (the largest integer not above a non-negative number, the smallest not below a negative one); `null`, lists and objects raise |
| Simulation.WithSpeed | src/sim/simulator.py:114-126 | the step size is the given one when positive, else 10; the speed is the given one when positive, else 0; with a non-zero speed the anchor is moved so that scaled elapsed wall time equals simulated time (no jump); nothing else changes |
| Simulation.AfterCommand | src/sim/simulator.py:95-112 | defines one command's effect on the clock: time never moves; the clock runs afterwards exactly for a start, or when it ran and the command is neither pause nor reset; a rewind is pending exactly when it was or the command is a reset; a start sets pacing to `WithSpeed` with the command's step size and speed, 10 and 1.0 when absent; every other command keeps step size, speed and anchor |
| Simulation.Advanced | src/sim/simulator.py:48-70 | defines the running branch of a step: a stopped clock is untouched, and the step is held back exactly when the clock runs and is behind pacing (what an advancing step does is `AdvancingStep`) |
| Simulation.StepForwardsAt | src/sim/simulator.py:61-68 | the burst has n events whose counters count down n-1, …, 0 |
| Simulation.CommandsKeepTime | src/sim/simulator.py:95-112 | no command moves simulated time, and none withdraws a pending rewind |
| Simulation.TickComesFirst | src/sim/simulator.py:44-46 | every step dispatches exactly one tick, first, carrying the time before the step |
| Simulation.IdleStep | src/sim/simulator.py:44-73 | a step that finds the clock stopped dispatches only the tick and is not gated; time stays put unless a rewind is pending, and then it is back at t0 |
| Simulation.PacingGate | src/sim/simulator.py:52-55 | a step returns `False` exactly when the clock runs at a non-zero speed and scaled wall time since the anchor is behind simulated time |
| Simulation.HeldBackStep | src/sim/simulator.py:52-55 | a held-back step dispatches only the tick, moves no time, keeps running and leaves a pending rewind pending |
| Simulation.PacingNeverOverruns | src/sim/simulator.py:52-58 | a step that advances at a non-zero speed starts from a simulated time no later than scaled wall time |
| Simulation.FreeRunningNeverGated | src/sim/simulator.py:52 | at speed 0 no step is held back |
| Simulation.AdvancingStep | src/sim/simulator.py:44-73 | an advancing step adds one time step, keeps `utcg_time = t0 + currentTime_EpSec`, and dispatches the tick, step-forward 3, 2, 1, 0 and one ground position in that order; step size and speed are kept and, unless a rewind is pending, the anchor is the one the step used; a pending rewind takes effect only after the publication |
| Simulation.StartAdvancesAtOnce | src/sim/simulator.py:98-103 | a start handled during the tick re-anchors pacing, so the same step is not held back and publishes a ground position |
| Simulation.ResetSuppressesStep | src/sim/simulator.py:107-110 | a reset handled during the tick stops the clock, so that step publishes no position and ends rewound to t0 |
| Simulation.FreeStep | src/sim/simulator.py:57-70 | one free-running step moves one time step and publishes exactly one position, at the new time |
| Simulation.FreeRun | src/sim/simulator.py:57-70 | n free-running steps advance by n time steps and publish the positions at t+s, t+2s, …, t+ns in order |
| Simulation.FiveFreeSteps | src/sim/simulator.py:57-70 | from t0 with a 10 s step, five steps end at t0+50 after publishing at 10, 20, 30, 40 and 50 s |
| Simulation.Simulator.constructor | src/sim/simulator.py:17-30 | t0 defaults to the wall clock; the new simulator is reset: at t0, not running, unanchored, no rewind pending, no events |
| Simulation.Simulator.Reset | src/sim/simulator.py:37-42 | the state becomes `Rewound` of the old state; step size, speed and events are unchanged |
| Simulation.Simulator.SetSimSpeed | src/sim/simulator.py:114-126 | the new state is `WithSpeed` of the old one; no events are dispatched |
| Simulation.Simulator.OnCommand | src/sim/simulator.py:95-112 | the new state is `AfterCommand` of the old one; time does not move |
| Simulation.Simulator.Tick | src/sim/simulator.py:75-82 | appends one tick carrying the current time |
| Simulation.Simulator.PublishGroundPosition | src/sim/simulator.py:84-92 | appends the ground position of the propagator at `int(utcg_time)` |
| Simulation.Simulator.HandleReplies | src/sim/gui.py:34-39 | commands sent back during the tick are applied in order (`AfterCommands`) |
| Simulation.Simulator.DispatchStepForwards | src/sim/simulator.py:61-68 | appends the four step-forward events |
| Simulation.Simulator.Advance | src/sim/simulator.py:57-70 | one time step later, with `utcg_time = t0 + currentTime_EpSec`; appends the burst and the ground position; nothing else changes |
| Simulation.Simulator.AdvanceIfRunning | src/sim/simulator.py:48-70 | the state, events and return value are those of `Advanced` |
| Simulation.Simulator.SimStep | src/sim/simulator.py:44-73 | the state, events and return value are those of `Stepped` |
| Messages.LonLatAlt | src/sim/gui.py:27-29 | a subscriber reads each of lon, lat and alt from the event, or 0.0 when the key is missing (camera.py:13-15 reads them the same way) |
| Gui.Route | src/sim/gui.py:41-48 | `start` and `pause` are forwarded with their parameters, `stop` becomes a parameterless `reset`, and every other command is dropped |
| Gui.OnSimTick | src/sim/gui.py:34-39 | the commands sent are the routed fetched commands in order; a failed fetch sends nothing |
| Gui.RoutedAppend | src/sim/gui.py:37-39 | routing a concatenation is the concatenation of the routings |
| Gui.RoutedControls | src/sim/gui.py:86-109 | when every command is start, pause or stop, one simulator command is sent per queued command, each being the routing of its own |
| Gui.RoutedDropsOthers | src/sim/gui.py:41-48 | a batch of only `set_*` commands sends nothing |
| Gui.TelemetryPayload | src/sim/gui.py:25-61 | the payload has exactly the keys satellite, timestamp, latitude, longitude and altitude, with satellite "Test" and missing coordinates read as 0.0 |
| CameraCache.Published | src/sim/camera.py:12-18 | the shared dictionary gains the position tuple and the stamp; every other key is unchanged |
| CameraCache.LastWriteWins | src/sim/camera.py:17-18 | of two publications the later one's position and stamp are what remain |
| CameraCache.Camera.constructor | src/sim/camera.py:7-10 | the cached position starts at (0.0, 0.0, 0.0) |
| CameraCache.Camera.OnGroundPosition | src/sim/camera.py:12-18 | the cached position is the event's (missing parts 0.0), and the shared entry holds the same tuple |
| DashboardModels.ParamsJson | src/dashboard/simulation/models.py:83-88 | parameters serialise to an object that has a key exactly for each parameter present, holding that parameter's value (the step size as a whole number) |
| DashboardModels.CommandJson | src/dashboard/simulation/models.py:83-88 | `to_dict` has exactly the keys command and parameters |
| CommandViews.ValidateCommand | src/dashboard/simulation/views.py:144-214 | defines the POST validation: every refusal is a 400 or an uncaught exception (500), and an accepted command comes from a JSON object and is one of the six kinds (the details are the three lemmas below) |
| CommandViews.AcceptedCommand | src/dashboard/simulation/views.py:149-220 | an accepted command is one of the six kinds and its parameters are valid for that kind |
| CommandViews.RefusedCommand | src/dashboard/simulation/views.py:144-156 | a missing body, a falsy command or an unknown command is refused with 400 and its message |
| CommandViews.RefusedControlParams | src/dashboard/simulation/views.py:198-214 | a start, pause or stop whose start time passed is refused with 400 for a non-positive or non-integer step size, and otherwise for a non-positive or non-numeric speed |
| CommandViews.RefusedStartTime | src/dashboard/simulation/views.py:161-196 | a start time that does not parse refuses with 400 and one that is not a string raises (500): for start, pause and stop whenever the key is present, for `set_start_time` whenever its value is truthy |
| CommandViews.Unconsumed | src/dashboard/simulation/views.py:133 | a row is listed exactly when it is in the queue and not consumed |
| CommandViews.UnconsumedAppend | src/dashboard/simulation/views.py:133 | the filter keeps table order: it distributes over concatenation and keeps a single row exactly when it is unconsumed |
| CommandViews.UnconsumedCounts | src/dashboard/simulation/views.py:133 | each unconsumed row is listed as often as it occurs in the table, a consumed one never |
| CommandViews.AllConsumed | src/dashboard/simulation/views.py:137 | same rows, each in its place, with `consumed` set |
| CommandViews.ByCreationSorts | src/dashboard/simulation/models.py:74-75 | ordering by creation time gives a sorted permutation of the rows |
| CommandViews.ByCreationIsFifo | src/dashboard/simulation/views.py:133 | rows already in creation order keep their order |
| CommandViews.PendingIsUnconsumed | src/dashboard/simulation/views.py:131-134 | the drained rows are exactly the unconsumed ones, in creation order |
| CommandViews.DrainedQueue | src/dashboard/simulation/views.py:136-137 | after a drain nothing is pending |
| CommandViews.ListingLength | src/dashboard/simulation/views.py:134 | one dictionary per pending row |
| CommandViews.CommandQueue.Drain | src/dashboard/simulation/views.py:131-139 | replies 200 with the pending commands and marks every row consumed |
| CommandViews.CommandQueue.Post | src/dashboard/simulation/views.py:141-230 | a valid command is appended with the next id and replied 201; a refused one changes nothing |
| CommandViews.CommandQueue.Handle | src/dashboard/simulation/views.py:125-230 | GET drains (reply and new table as `Drain`); POST appends the validated command and replies 201 with it, or returns the refusal and leaves the table; any other method is refused with 405 without a change |
| TelemetryViews.ValidateTelemetry | src/dashboard/simulation/views.py:37-64 | defines the ingest validation: every refusal is a 400 or an uncaught exception (500), and an accepted reading comes from a JSON object (the details are the two lemmas below) |
| TelemetryViews.AcceptedTelemetry | src/dashboard/simulation/views.py:42-77 | an accepted reading has a truthy satellite and timestamp, a parsable timestamp, and numeric coordinates |
| TelemetryViews.RefusedTelemetry | src/dashboard/simulation/views.py:37-64 | in the source's order: a falsy satellite, a falsy timestamp, an unparsable timestamp, missing or non-numeric coordinates and a non-numeric altitude are each refused with 400 and their own message; a timestamp that is not a string raises (500) |
| TelemetryViews.Lookup | src/dashboard/simulation/views.py:66 | finds the satellite with that name when there is one |
| TelemetryViews.Recent | src/dashboard/simulation/views.py:102-119 | defines the listing loop over the satellites in table order, at most one point each (its properties are `RecentExactly` and `RecentOncePerSatellite`) |
| TelemetryViews.RecentExactly | src/dashboard/simulation/views.py:103-119 | a point is listed exactly when an active satellite has a telemetry record |
| TelemetryViews.RecentOncePerSatellite | src/dashboard/simulation/views.py:103-119 | a satellite is listed at most once |
| TelemetryViews.PointsJson | src/dashboard/simulation/views.py:110-119 | one JSON object per point, in order |
| TelemetryViews.TelemetryStore.GetOrCreate | src/dashboard/simulation/views.py:66 | returns the named satellite, created (active, next id) when missing |
| TelemetryViews.TelemetryStore.Ingest | src/dashboard/simulation/views.py:66-89 | an accepted reading replaces the satellite's one record (201 if it had none, 200 otherwise); a refused one changes nothing |
| TelemetryViews.TelemetryStore.ListRecent | src/dashboard/simulation/views.py:102-121 | replies with the latest point of each active satellite that has one |
| TelemetryViews.TelemetryStore.Handle | src/dashboard/simulation/views.py:34-35 | a method other than the endpoint's own (`POST` for ingest, `GET` for recent) is refused with 405 without a change; a POST to ingest does what `Ingest` states, a GET to recent replies with `Recent` and changes nothing |
| Viewing.Clip | src/sim/ImagingProviders/mapbox_provider.py:44 | `np.clip` to [-1, 1]: the identity inside, 1 above, -1 below |
| Viewing.Bearing | src/sim/ImagingProviders/mapbox_provider.py:38-50 | defines the bearing; under the trigonometric laws a defined bearing lies in [0, 360) (its side and definedness are `BearingRange` and `BearingSide`) |
| Viewing.Observe | src/sim/ImagingProviders/mapbox_provider.py:19-50 | when defined, pitch and elevation add up to 90 degrees |
| Viewing.TargetView | src/sim/ImagingProviders/mapbox_provider.py:53-59 | an image request is for the target's longitude and latitude, at an elevation (90 − pitch) of at least 30 degrees; a refusal reports an elevation below 30 |
| Viewing.SphericalRadius | src/sim/ImagingProviders/mapbox_provider.py:71-80 | the Cartesian point lies at the given radius |
| Viewing.UnitIsUnit | src/sim/ImagingProviders/mapbox_provider.py:28-30 | a normalised vector has norm 1 |
| Viewing.TangentOrthogonal | src/sim/ImagingProviders/mapbox_provider.py:39-41 | the projection onto the ground plane is orthogonal to the up vector |
| Viewing.UnitCosine | src/sim/ImagingProviders/mapbox_provider.py:33 | the dot product of two unit vectors lies in [-1, 1], so the unclipped `acos` is defined |
| Viewing.AlignedHasNoTangent | src/sim/ImagingProviders/mapbox_provider.py:39-40 | when the satellite direction is straight up, its projection vanishes |
| Viewing.PointRadii | src/sim/ImagingProviders/mapbox_provider.py:19-20 | the target is at the Earth radius, the satellite at radius plus altitude |
| Viewing.ObserveDefined | src/sim/ImagingProviders/mapbox_provider.py:22-35 | the geometry is defined exactly when the satellite is not at the target, and the elevation `acos` never sees a value outside its domain |
| Viewing.BearingRange | src/sim/ImagingProviders/mapbox_provider.py:44-50 | the bearing is defined exactly when both projections are non-zero, and then lies in [0, 360) |
| Viewing.BearingSide | src/sim/ImagingProviders/mapbox_provider.py:46-50 | the bearing is above 180 exactly when the turn is clockwise and strictly between 0 and 180, and it is 180 ∓ the turn otherwise |
| Viewing.OverheadHasNoBearing | src/sim/ImagingProviders/mapbox_provider.py:33-44 | at 90 degrees of elevation the bearing is undefined (NaN in the source) |
| Viewing.VisibilityGate | src/sim/ImagingProviders/mapbox_provider.py:53-54 | a defined view is refused exactly when its elevation is below 30 degrees |
| Viewing.RequestedPitch | src/sim/ImagingProviders/mapbox_provider.py:33-59 | a requested image has elevation in [30, 90] and pitch in [0, 60], with pitch = 90 − elevation |
| Pipeline.ParamsRoundTrip | src/sim/gui.py:39 | the parameters the GUI reads back are exactly those the dashboard serialised; a step size is read back only as the whole number written |
| Pipeline.ListingRoundTrip | src/dashboard/simulation/views.py:134 | decoding the listing gives back each pending row's command and parameters |
| Pipeline.PollRoundTrip | src/dashboard/simulation/views.py:131-139 | the batch the GUI decodes from a drain is the pending commands, in creation order |
| Pipeline.StopBecomesRewind | src/sim/gui.py:47-48 | a single queued stop reaches the clock as a reset: not running, rewind pending, time unchanged |
| Pipeline.SettingsNeverReachClock | src/sim/gui.py:41-48 | queued `set_*` commands send nothing and leave the clock as it was |
| Pipeline.TelemetryPushAccepted | src/sim/gui.py:52-61 | a pushed position is accepted exactly when its timestamp is non-empty and parses; the stored reading is the payload's |

## Left out

- HTTP transport, JSON text encoding and decoding, the Django ORM, URL routing, `main.py`, `api.py`, the Sentinel provider and the scripts: these are I/O or glue. A request body is given already decoded, or as `None` when it is not JSON.
- The pydispatch bus: its synchronous dispatch is modelled by the event list and the `replies` input. An exception raised in a subscriber, which would propagate to the simulator loop, is not modelled.
- The orbit propagation (pyorbital), `datetime.fromtimestamp(...).isoformat()` with its host time zone, `parse_datetime` and `isoformat` on the dashboard, and `str()` of arbitrary JSON: each is a function parameter with no further laws.
- Floating point: all reals are exact. NaN, infinities and rounding are left out. A zero-norm vector, which makes NumPy produce NaN, is modelled as `Undefined` or as an undefined bearing. The source does not refuse in that case: `NaN < 30` is false, so it still requests an image, with NaN pitch and bearing in the URL. The model's `Undefined` issues no request, and an undefined bearing is carried as `None`.
- Pipeline.ParamsOfJson: a `step_size_seconds` that is not a whole number fails to decode. The GUI forwards whatever the dashboard sent, but the dashboard only ever stores positive integers there (views.py:171-177).
- Simulation.Simulator.SimStep: one `now` stands for every `time.time()` call in a step; the microseconds between calls are not modelled.
- CommandViews.CommandQueue.Drain: the read and the `update(consumed=True)` are one atomic step. A concurrent POST between them, which the source would mark consumed without returning it, is not modelled.
- CommandViews.ByCreation: rows created at the same instant are kept in table order. `order_by("created_at")` has no tie-breaker, so the database's order among equal timestamps is unspecified; `Pipeline.PollRoundTrip` relies on the model's choice.
- Simulation.Simulator.constructor: the default arguments `timing_mode=0` and `time_step=10` are not modelled; callers pass both.
- Viewing.ToCartesian and DashboardModels.ToDict compute without a contract of their own. Their properties are stated by `Viewing.SphericalRadius` and by `DashboardModels.CommandJson` with `Pipeline.ListingRoundTrip`.
- Simulation.Stepped (a whole `sim_step`) has no contract of its own: its properties are the lemmas `TickComesFirst`, `IdleStep`, `PacingGate`, `HeldBackStep`, `AdvancingStep`, `StartAdvancesAtOnce` and `ResetSuppressesStep`. A contract on the function itself is unfolded at every use and pushes those lemmas past the solver's resource limit.
- TelemetryViews.TelemetryStore.ListRecent: satellites are listed in table order. The source's query has no ordering, and rows are never deleted in the model.
- TelemetryViews.TelemetryStore.Ingest: the reply's `timestamp` and `updated_at` strings are not modelled beyond being derived from the stored values.
- Viewing.ObserveDefined: only "satellite at the target ⇒ undefined" and its converse are proved. "Elevation 90 ⇒ satellite straight above" needs the non-linear step "squares summing to 0 vanish" and is left out.
- Viewing.BearingSide: a turn of exactly 0 or 180 degrees, where the sign test on the cross product is 0, is only covered by the range lemma.
- The `_json_error` helper, `__str__` methods and the logging `print` calls carry no behaviour and are not modelled separately.

Behaviour of the code worth noting, which the model keeps:

- The pacing gate compares scaled wall time with `currentTime_EpSec` (simulator.py:54), not with simulated time plus one step.
- A reset handled during a tick clears `sim_is_running` at once (simulator.py:109), so that step publishes no ground position (`Simulation.ResetSuppressesStep`).
- The bearing's reference vector is (0, 0, 1), towards the North Pole, although the variable's name says south (mapbox_provider.py:38).
- The GUI forwards only start, pause and stop (gui.py:41-48). A queued `set_step_size` or `set_replay_speed` never reaches the clock (`Pipeline.SettingsNeverReachClock`).
- A start without parameters resets the step size to 10 and the speed to 1.0 (simulator.py:101-102). A resume after a pause therefore drops any earlier pacing settings.
- A pacing anchor of exactly 0.0 reads as unset (`not self.start_time`, simulator.py:50).
