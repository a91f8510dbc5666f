# Cloud AI network assistant — telemetry core in Dafny

This project models the telemetry core of the cloud network assistant:

- the per-node telemetry generator of the simulator (`NodeModel`): baselines drawn from a seeded random stream, a load derived from a 60-second cycle, correlated CPU, memory, throughput, latency and packet-loss readings, threshold classification into OK / WARN / CRITICAL, and rounding;
- the scripted incident windows (`Incident`, `build_incidents`);
- the `TelemetryEvent` record of backend/app/models.py and the field constraints its constructor enforces (the simulator builds its events with the same record, see "## Left out");
- the backend's in-memory store (`InMemoryTelemetryStore`): one bounded FIFO buffer per node, the latest event per node, and the `latest` and `history` queries.

Modules:

- `Wrappers` has `Option` and `Result`.
- `Numbers` has Python's `max`/`min`/`abs`, `int()` on a float, and `round(x, 2)` / `round(x, 4)`, all over exact reals.
- `Models` has the event record and its validation.
- `Incidents` has the incident windows.
- `Simulator` has the random stream (`Rng`, a class whose cursor advances), the `NodeModel` class, and the pure sample functions that specify `generate`.
- `Store` has the store as a class with map fields, a value-level invariant, and the functions and lemmas its methods are proved against.

Inputs that the source reads from the environment are parameters here:

- the wall clock of `time.time()` is `clock` / `base`;
- the value of the sine cycle is `cycle`;
- the random stream is a sequence of unit or standard variates.

The tests in `tests/` call `build_incidents(cfg, base_time=...)` and `generate(t, {})`. Neither signature exists in the source. The model follows the code: `build_incidents` reads the clock once, and that reading is the `base` parameter of `Incidents.BuildIncidents`. `generate`'s `t` enters only through `_cycle(t)`, whose value is the `cycle` input of `Simulator.NodeModel.Generate`. Its `clock` is the separate `time.time()` reading behind the timestamp, taken anew on every call.

## Model

| member | source | states |
|---|---|---|
| Numbers.Max | simulator/node_model.py:50-53 | `max`: an upper bound of both arguments and equal to one of them |
| Numbers.Min | simulator/node_model.py:41 | `min`: a lower bound of both arguments and equal to one of them |
| Numbers.Abs | simulator/node_model.py:56 | `abs`: non-negative and equal to the argument or its negation |
| Numbers.Clamp | simulator/node_model.py:41-47 | `max(lo, min(hi, x))` lies in [lo, hi], is `x` when `x` is in range, `lo` below it and `hi` above it |
| Numbers.Trunc | simulator/incident_model.py:28-29 | `int(x)` truncates toward zero: within one below a non-negative `x`, within one above a negative one, never larger in magnitude |
| Numbers.Round | simulator/node_model.py:67-71 | `round(x, n)` is within half a unit of the n-th decimal place of `x` |
| Numbers.RoundScaled | simulator/node_model.py:67-71 | `round(x, n)` is a whole number of units of the n-th place: the half-even nearest integer to x·10^n, scaled back |
| Numbers.RoundHalfEven | simulator/node_model.py:67-71 | the integer nearest the argument, a tie going to the even one |
| Numbers.RoundHalfEvenMonotone | simulator/node_model.py:67-71 | rounding to an integer preserves order |
| Numbers.RoundHalfEvenWhole | simulator/node_model.py:67-71 | an integer rounds to itself |
| Numbers.RoundMonotone | simulator/node_model.py:67-71 | `round(x, n)` preserves order |
| Numbers.RoundWhole | simulator/node_model.py:67-71 | a whole number rounds to itself at two or four places |
| Numbers.RoundWithin | simulator/node_model.py:67-71 | a value between two whole bounds rounds to a value between them, so rounding keeps every clamped reading in range |
| Numbers.RoundNonNegative | simulator/node_model.py:67-71 | a non-negative value rounds to a non-negative value |
| Models.Valid | backend/app/models.py:7-11 | an event's field ranges hold exactly when the constructor's checks on its own fields all pass |
| Models.EventFieldsOk | backend/app/models.py:7-13 | the constructor's per-field checks on an event's own fields amount to its five range constraints (its status always parses) |
| Models.ParseStatus | backend/app/models.py:13 | the `status` literal: a parsed name is the name of its status, and an unparsed name names no status |
| Models.StatusRoundTrip | backend/app/models.py:13 | parsing a status's name gives the status back |
| Models.Violations | backend/app/models.py:7-13 | a field is listed as an error exactly when its constraint fails |
| Models.Validate | backend/app/models.py:5-13 | construction succeeds exactly when every constraint holds; the event then satisfies them, copies the given values, takes `now` as the default timestamp and OK as the default status; a failure names every broken field and no other |
| Models.ValidIffAccepted | backend/app/models.py:5-13 | an event satisfies the constraints exactly when rebuilding it from its own fields succeeds and returns it unchanged |
| Models.AcceptsPacketLossTwoTenths | tests/test_models.py:4-14 | the test's event with packet loss 0.2 is accepted, with the clock as its timestamp |
| Models.RejectsPacketLossOneAndAHalf | tests/test_models.py:16-26 | the test's event with packet loss 1.5 is rejected, on that field alone |
| Incidents.Incident.Active | simulator/incident_model.py:13-14 | `active(now)`: an active incident has start ≤ end, and no incident is active before its start or after its end |
| Incidents.FromSpec | simulator/incident_model.py:28-37 | one window: type and node copied; severity defaults to 1.0; start is the base plus the truncated offset; the window lasts the truncated duration, so a non-negative duration gives start ≤ end and a duration of −1 or less gives end < start |
| Incidents.BuildIncidents | simulator/incident_model.py:16-39 | one window per entry, in entry order, each as `FromSpec` builds it from one shared base |
| Incidents.ActiveIff | simulator/incident_model.py:13-14 | a built incident is active exactly on the closed interval from base + offset to base + offset + duration |
| Incidents.WindowExample | tests/test_incidents.py:3-15 | the test's window, starting at +10 and lasting 5, is off at +9, on at +10 and +12, and off at +16 |
| Simulator.Rng.Uniform | simulator/node_model.py:17-21 | a uniform draw consumes exactly one variate `u` of the stream and returns `lo + (hi − lo)·u`, which lies on [lo, hi] for a unit variate in [0, 1] |
| Simulator.Rng.NormalVariate | simulator/node_model.py:40-56 | a Gaussian draw consumes exactly one variate of the stream and returns mu + sigma·z |
| Simulator.NormalOf | simulator/node_model.py:40-56 | the Gaussian value `mu + sigma·z`: the mean for z = 0, on the side of the mean that z's sign gives when sigma ≥ 0 |
| Simulator.UniformOf | simulator/node_model.py:17-21 | a unit variate maps into [lo, hi], and 0 maps to lo |
| Simulator.DrawBaselines | simulator/node_model.py:16-21 | for unit variates in [0, 1], the five baselines lie in their documented ranges: latency 10–50 ms, throughput 200–1200 Mbps, CPU 10–40 %, memory 30–70 %, loss floor 0–0.005 |
| Simulator.Load | simulator/node_model.py:39-41 | the load stays in [0, 1.2] whatever the noise |
| Simulator.Cpu | simulator/node_model.py:43-44 | CPU stays in [0, 100] |
| Simulator.Mem | simulator/node_model.py:46-47 | memory stays in [0, 100] |
| Simulator.Throughput | simulator/node_model.py:49-50 | throughput is never negative |
| Simulator.Latency | simulator/node_model.py:52-53 | latency is never negative |
| Simulator.Loss | simulator/node_model.py:55-57 | packet loss stays in [0, 1] and never falls below a loss floor of at most 1 |
| Simulator.Observe | simulator/node_model.py:37-57 | every quantity of a sample is in range for any noise, and the packet loss is at least the node's loss floor |
| Simulator.Classify | simulator/node_model.py:59-63 | CRITICAL exactly when a critical threshold is crossed; WARN exactly when only a warning threshold is crossed; OK exactly when neither is |
| Simulator.StatusPrecedenceExample | simulator/node_model.py:59-63 | a CPU of 98 with a latency of 50 is CRITICAL whatever the packet loss |
| Simulator.StatusPrecedesRounding | simulator/node_model.py:59-71 | the status is decided on unrounded values: CPU 97.004 is CRITICAL although the emitted 97.0 alone would be WARN |
| Simulator.EmittedInputAccepted | simulator/node_model.py:65-74 | the rounded, clamped readings satisfy every constraint of the event constructor |
| Simulator.Sample | simulator/node_model.py:27-74 | a sample's event is for the node, is valid, has `int(clock)` as timestamp, has the status classified on the unrounded readings, and has each reading rounded to 2 places (loss to 4) |
| Simulator.NodeModel.constructor | simulator/node_model.py:12-21 | the model keeps its name and stream and draws its five baselines from the next five variates, in order |
| Simulator.NodeModel.Generate | simulator/node_model.py:27-74 | consumes exactly the next six variates and returns the `Sample` of the model's baselines on them: a valid event of this node |
| Simulator.SampleBySecond | simulator/node_model.py:65-74 | a sample depends on the clock only through its whole second: two readings give the same event exactly when they fall in the same second |
| Simulator.Determinism | tests/test_determinism.py:4-18 | two models of the same node on equal streams, sampled at the same `t` but each reading the clock itself, give equal events exactly when the two readings fall in the same second; the first event is the sample of the first eleven variates |
| Store.Bounded | backend/app/store.py:12 | a `deque(maxlen=cap)` after appends holds at most `cap` events: the newest ones, oldest first, all of them when they fit |
| Store.BoundedOfOneNode | backend/app/store.py:12-16 | a buffer fed one node's events holds only that node's events, and its last is the last appended |
| Store.AppendWithRoom | backend/app/store.py:16 | appending to a buffer with room keeps every event and adds the new one last |
| Store.AppendWhenFull | backend/app/store.py:16 | appending to a full buffer drops exactly the oldest event |
| Store.AppendWithoutRoom | backend/app/store.py:16 | a buffer of size 0 keeps nothing |
| Store.NewestLast | backend/app/store.py:16-30 | after an append to a buffer with room for at least one event, `history(node, 1)` is the new event alone |
| Store.SliceFrom | backend/app/store.py:30 | `s[start:]`: a suffix of `s`, a negative start counting from the end, bounded at both ends |
| Store.MaxByTimestamp | backend/app/store.py:26 | `max(..., key=timestamp)`: an event no other event's timestamp exceeds, the first such |
| Store.AddKeepsInvariant | backend/app/store.py:15-17 | adding keeps the store invariant: buffers bounded and per-node, latest events matching the buffers, the key order listing each node once |
| Store.AddKeepsLatest | backend/app/store.py:16-17 | updating one node's buffer and latest event together keeps them matching |
| Store.AddKeepsBuffersBounded | backend/app/store.py:16 | replacing one buffer by a bounded one of its node keeps every buffer bounded |
| Store.AddKeepsOrder | backend/app/store.py:17 | a dict keeps a key's first insertion position: a new node goes last, an old node stays put |
| Store.TelemetryStore.constructor | backend/app/store.py:11-13 | an empty store with the given buffer size, 2000 by default |
| Store.TelemetryStore.Buffer | backend/app/store.py:29 | `self._events.get(node, [])`: empty for a node never added; in a valid store at most the buffer size and only that node's events |
| Store.TelemetryStore.Add | backend/app/store.py:15-17 | appends to the node's bounded buffer and makes the event its latest; afterwards the node's lookup `LatestOf(node)` is the event, `latest(node)` is the event for a non-empty node name, and `history(node, 1)` is the event alone; every other node is unchanged; the invariant holds |
| Store.TelemetryStore.LatestOf | backend/app/store.py:20-21 | `latest(node)`: absent exactly for a node never added; otherwise an event of that node, the newest in its buffer |
| Store.TelemetryStore.LatestOverall | backend/app/store.py:23-26 | the documented `latest()`: absent on an empty store; otherwise some node's latest event, with a timestamp no latest event exceeds, the first such in key order |
| Store.TelemetryStore.Latest | backend/app/store.py:19-26 | a truthy node name looks that node up; no name or "" gives the latest across all nodes; any result is some node's latest event |
| Store.TelemetryStore.LatestAsWritten | backend/app/store.py:19-26 | as written, `latest` succeeds exactly for a truthy node name, agreeing with `Latest` there, and fails otherwise |
| Store.TelemetryStore.History | backend/app/store.py:28-30 | `history(node, limit)` (limit 100 by default): a suffix of the node's buffer; empty for an unknown node; `min(limit, len)` events for a positive limit; all of them for limit 0; all but the first `-limit` for a negative limit |
| Store.LatestWithoutNodeFails | backend/app/store.py:24-26 | on a store holding events, `latest()` as written fails while the documented behaviour returns an event |

## Left out

- The sine of `_cycle` (simulator/node_model.py:23-25) is left out, because Dafny has no trigonometry over reals. `Generate` takes the cycle value as the input `cycle`.
- The stream holds one standardized variate per distribution call: a unit `u` for `uniform`, which the model turns into `lo + (hi − lo)·u`, and a standard normal `z` for `normalvariate`, which the model turns into `mu + sigma·z`. How the Mersenne Twister produces them is left out, including `normalvariate`'s rejection loop, which may consume several underlying numbers.
- Floating point is left out: every quantity is an exact real. `Numbers.Round` rounds the exact value half to even. Python rounds the binary float, which can differ for decimals that have no exact binary form, such as `round(2.675, 2) == 2.67`.
- The clock is a parameter: `time.time()` is `clock` in `Generate` and `base` in `BuildIncidents`.
- pydantic's coercion of input types (strings to numbers and the like) is left out. `Models.EventInput` stands in as already-typed arguments, and the model checks the ranges and the status literal.
- The KeyError, TypeError or ValueError of a malformed incident entry is left out. That covers a missing "type", "start_after_s" or "duration_s" key (KeyError), a non-numeric string such as `int("abc")` (ValueError), and an explicit `"severity": None` (TypeError). `IncidentSpec` holds the three required keys by construction, and its `severity` is `None` only when the key is absent.
- A negative `max_events_per_node` is left out. Python's deque refuses it with ValueError, and `maxEventsPerNode` is a `nat`.
- Simulator.NodeModel.Generate requires six unused variates, and the constructor five, because the stream is a finite prefix of an unbounded one.
- simulator/models.py is not part of this model. simulator/node_model.py:4 builds its events with `simulator.models.TelemetryEvent`, and this model assumes that class is the same as backend/app/models.py's `TelemetryEvent`: `Simulator.Sample` and `Simulator.NodeModel.Generate` construct their events through `Models.Validate`.
- Incident effects on the generator, the alert engine and the emit loop are not part of this model, because no such code exists in the modelled files.
- backend/app/crud.py, backend/app/main.py, backend/app/db_models.py, backend/app/app/db.py, the stats and alert models, simulator/settings.py, simulator/main.py and the sinks are not part of this model. They are HTTP, database, configuration and output plumbing around the core.

## Findings

| source | as written | input that shows it | evidently intended | confidence | as-written member | corrected member |
|---|---|---|---|---|---|---|
| backend/app/store.py:24-26 | with no node (or ""), `latest` reads `self._latest`, which the store never sets, so the call raises AttributeError | a store after one `add(e)`, then `latest()` | return the latest event across all nodes by timestamp from `self._latest_events`, or None on an empty store | not executed | Store.TelemetryStore.LatestAsWritten (Store.LatestWithoutNodeFails) | Store.TelemetryStore.LatestOverall |
