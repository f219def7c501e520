# Telemetry relay core in Dafny

A model of the stateful core of a three-tier telemetry relay. Sensors stream readings to a
drone edge node. The drone keeps a rolling window per sensor, simulates a draining battery,
and every forward cycle sends a summary to a central server. The central server keeps a
bounded history, remembers which connection each drone reported on, and routes battery
commands back to drones.

Every piece is a pure step function over immutable datatypes. Time, clock readings, parsed
lines, connection ids and random draws are explicit parameters.

| file | module | models |
|---|---|---|
| `wrappers.dfy` | `Wrappers` | `Option` for absent fields |
| `json.dfy` | `Json` | decoded JSON values and objects, with `dict.get` |
| `bounded.dfy` | `Bounded` | `deque(maxlen=…)` append (`Push`), its fold (`Feed`) and newest-`n` view (`LastN`) |
| `message.dfy` | `Message` | the sensor `Reading` record |
| `battery.dfy` | `Battery` | `drone/battery.py`, plus the floored drain of a control message |
| `rolling_store.dfy` | `RollingStore` | the drone's per-sensor store and the sensor connection's read loop |
| `summary.dfy` | `Summary` | `_build_summary`: newest-per-sensor, means, anomalies, `battery_low`, pending merge |
| `drone.dfy` | `Drone` | the forward cycle (tick, returning transition, build, payload shaping) and control handling |
| `central.dfy` | `Central` | the central server's per-line ingestion, registry, session and `_send_batt` |
| `command_path.dfy` | `CommandPath` | a dispatched command as the drone receives and applies it |
| `sensor.dfy` | `Sensor` | `run_sensor`'s per-connection emissions, spike injection and clearing |

Modelling choices:
- Battery time is in seconds of monotonic clock and is divided by 60, as in `battery.py`. The drone uses capacity 100 and 2 % per minute.
- Every `as_percent` call ticks the battery. So `Summary.Build` takes two elapsed intervals: one for the `battery_low` value and one for the summary's `battery` field. It also takes two timestamps.
- `random.uniform` becomes a `Draw` input. `Sensor.ExpectedShape` assumes each draw lies within its bounds.
- Decoding is abstracted. A sensor line is a `Reading` record and a stored central object is its `drone_id` and an opaque body. A control message is a decoded JSON object (`Json.Object`), and the drone reads its fields as the source does. Each kind of decode failure is a variant of the line datatype.

## Behaviour of the code worth knowing

The model follows the code in each of these cases.
- Anomaly scan: the scan looks only at the newest reading of each sensor (`drone/drone_server.py:119,128`). An out-of-range reading that is no longer the newest is never reported.
- `battery_low`: the comment at `drone/drone_server.py:146` says the anomaly is added once per returning episode. The guard at `drone/drone_server.py:147` inspects the list just built, which never holds one (`Summary.ScanHasNoBatteryLow`). So every summary built while returning has exactly one.
- No readings but some anomalies: with an empty store and either a returning drone or a queued event, building the summary rounds a missing average and raises. This is `Summary.NoAverages` (`Drone.Crashed`). The battery has already been ticked by then. Nothing catches the error. It escapes `forward_loop`, and through the `asyncio.gather` run by `asyncio.run` (`drone/drone_server.py:250-256`) it stops the whole drone process.
- Bad sensor lines: a line that does not decode, or that has no `sensor_id`, is not skipped. The error escapes the read loop and ends the sensor connection (`RollingStore.HandleLine`).
- Disconnect anomaly: the comment at `drone/drone_server.py:77` says the disconnection is logged as an anomaly. The handler appends it to an attribute that is never defined, so no disconnection anomaly reaches a summary. The queued-events buffer is an abstract input to the builder.
- Central: the read loop catches only JSON syntax errors. A line that is valid JSON but not an object fails at `obj.get`, and a line that is not UTF-8 fails before JSON parsing. Either ends that drone's handler with no state change (`Central.NotAnObject`, `Central.NotUtf8`).
- Control messages: the listener catches only end-of-stream, connection-reset and JSON syntax errors. Four other lines raise: a line that is not UTF-8, valid JSON that is not an object, a message addressed to the drone that lacks `action`, and a drain whose `amount` is a string, null, array or object. Nothing catches these. They escape `listen_central` and stop the whole drone process through the same `gather` (`Drone.ListenerCrashed`).
- Dropped reader: after end-of-stream or a JSON syntax error the listener forgets its reader (`drone/drone_server.py:232-233`) and then only sleeps while it has none (`drone/drone_server.py:214-216`). The reader is set again only by a reconnect (`drone/drone_server.py:103`). A reconnect happens only when the writer is missing or closing (`drone/drone_server.py:110-115`), and the writer is cleared only after a failed send (`drone/drone_server.py:205-209`). So after one JSON syntax error on a healthy connection, the drone reads no further control message for as long as its summaries keep being sent (`Drone.ReaderDropped`).

## Model

| member | source | states |
|---|---|---|
| Bounded.Push | central/central_server.py:26 | appending to a full bounded deque evicts only the oldest element; the result is never over capacity, ends with the new element and is the newest `cap` of old-plus-new |
| Bounded.FeedKeepsNewest | drone/drone_server.py:35 | after any sequence of appends the deque holds exactly the newest `cap` elements seen, in arrival order |
| RollingStore.Append | drone/drone_server.py:68-71 | a reading goes to its own sensor's window, which keeps the newest 10 in arrival order; other windows are unchanged; a new sensor id is added at the end of the key order; store well-formedness is preserved |
| RollingStore.AppendPreservesValid | drone/drone_server.py:35 | appending keeps the store well formed: distinct keys matching the windows, every window non-empty and at most 10 long, every reading filed under its own sensor id |
| RollingStore.HandleLine | drone/drone_server.py:67-74 | a decoded reading is stored and reading continues; a bad line ends the connection and leaves the store unchanged |
| RollingStore.Session | drone/drone_server.py:67-74 | the read loop of one sensor connection, over any lines, keeps every window within 10 readings and a well-formed store well formed |
| RollingStore.SessionKeepsNewest | drone/drone_server.py:68-71 | after a connection streams readings of one sensor, that sensor's window is the newest 10 of its old window plus everything sent, in order |
| RollingStore.SessionLeavesOthers | drone/drone_server.py:70-71 | a connection streaming one sensor's readings leaves every other sensor's window unchanged |
| Battery.New | drone/battery.py:4-9 | a new battery starts full, and is valid when capacity and rate are non-negative |
| Battery.Tick | drone/battery.py:11-15 | the level becomes `level - elapsed/60 * rate` floored at 0; it never goes below 0, never rises for a valid battery, and keeps `0 <= level <= capacity` |
| Battery.Charge | drone/battery.py:17-18 | the level becomes the capacity, whatever it was |
| Battery.AsPercent | drone/battery.py:20-22 | reading the percentage ticks first: the battery returned is the ticked one and the value is its level, which is strictly lower when time passed with a positive rate and level |
| Battery.TickSplits | drone/battery.py:11-15 | two ticks drain the same as one tick over the summed interval, so the hidden ticks only subdivide the drain |
| Battery.Drain | drone/drone_server.py:226-227 | a drain command sets the level to `max(0, level - amount)`, keeping validity for non-negative amounts |
| Summary.NewestOf | drone/drone_server.py:119 | one reading per key with a non-empty window, the last of that window, in key order |
| Summary.NewestOnePerSensor | drone/drone_server.py:119 | in a well-formed store every sensor contributes exactly its newest reading, and the last one belongs to the last key in insertion order |
| Summary.MeanWithin | drone/drone_server.py:123-124 | an average (`Summary.Mean`, the sum over the count) lies within any bounds that hold of every newest reading |
| Summary.Scan | drone/drone_server.py:128-142 | a temperature (humidity) anomaly carrying the reading's id, value and timestamp appears for a newest reading iff its value is outside [0,60] ([0,100]); nothing else appears |
| Summary.ScanHasNoBatteryLow | drone/drone_server.py:147 | the list the `battery_low` guard inspects never holds one, so the guard always lets it through |
| Summary.Assemble | drone/drone_server.py:121-158 | the anomaly list is exactly the scan result, then one `battery_low` with id "-" and the post-tick level iff returning, then the pending events; the battery is ticked only when returning |
| Summary.Build | drone/drone_server.py:118-173 | nothing to report iff no readings, no pending events and not returning; the missing-average error iff no readings but returning or events pending; otherwise averages are the means of the newest readings, latest fields come from the last newest reading; the battery is ticked once more for the summary's own percentage after the battery-low reading's tick |
| Summary.AppendedIsNewest | drone/drone_server.py:119 | a just-appended reading is among the newest readings, and is the last of them when its sensor is the last key in insertion order |
| Summary.OutlierReported | drone/drone_server.py:119-142 | a just-arrived out-of-range temperature is reported in the next summary, which is then never empty, and is the latest temperature when its sensor is last in key order |
| Drone.New | drone/drone_server.py:33-41 | a new drone has the given id, an empty store, no queued events, a full battery of capacity 100 draining 2 % per minute, and is not returning |
| Drone.Transition | drone/drone_server.py:182-188 | after the check `returning` equals `level < 20`, and it flips only when the level is on the other side of 20 from the current mode |
| Drone.Shape | drone/drone_server.py:194-199 | a payload has no averages and `returning = true` while returning, and keeps the averages with `returning = false` otherwise; all other fields are carried over |
| Drone.ShapeRoundTrip | drone/drone_server.py:194-199 | a non-returning payload gives back the summary it was shaped from |
| Drone.Forward | drone/drone_server.py:190-199 | from a ticked battery and a decided mode: skip iff nothing to report, crash iff anomalies without readings; the battery is ticked again for `battery_low` while returning and once more for the summary; a sent payload carries that level, the means of the newest readings unless returning, the latest fields of the last newest reading and exactly the assembled anomaly list |
| Drone.Cycle | drone/drone_server.py:180-199 | the battery is ticked by the elapsed time, then by the hidden reads of the percentage (none when the cycle skips); `returning` matches the ticked level against 20 and the pending buffer is empty; the cycle skips iff nothing is to report and crashes iff there are anomalies without readings; a sent payload carries the final level, the means of the newest readings unless returning, the latest fields of the last newest reading, one `battery_low` while returning, and ends with the pending events |
| Drone.HandleControl | drone/drone_server.py:218-233 | only a message whose `type` is "battery" and whose `target` is this drone's id acts: drain sets `max(0, level - amount)` with amount defaulting to 0 and booleans counting as 0 or 1, recharge fills to capacity, other actions change nothing; end of stream and JSON syntax errors drop the reader; a non-UTF-8 line, a non-object, a missing action or a non-numeric drain amount stop the drone |
| Drone.Listen | drone/drone_server.py:222-231 | a control message changes nothing of the drone but its battery, which becomes the battery `HandleControl` gives; a dropped reader leaves the drone as it was; the drone stops exactly when `HandleControl` crashes |
| Central.Receive | central/central_server.py:43-56 | an object becomes the newest history entry, evicting the oldest only when 200 are held; a non-empty `drone_id` maps to this connection and every other entry stays; a line with a JSON syntax error changes nothing and reading continues; a non-object or non-UTF-8 line ends the connection unchanged |
| Central.Disconnect | central/central_server.py:59-61 | closing a connection removes no registry entry and leaves the history alone |
| Central.Session | central/central_server.py:42-61 | however many lines a connection sends, the history stays within 200 entries |
| Central.SessionHistory | central/central_server.py:43-52 | after a session the history is the newest 200 of the old history plus every object stored, in arrival order |
| Central.SessionKeepsRegistrations | central/central_server.py:48-61 | no session unregisters a drone id, however it ends |
| Central.Dispatch | central/central_server.py:123-137 | a command to an unregistered id is a routing miss; otherwise exactly one battery command for that id, action and amount goes to the registered connection; the state is not changed |
| Central.ReceiveThenDispatch | central/central_server.py:48-50 | after a connection reports under an id, a command for that id is written to that connection |
| CommandPath.DispatchedCommandApplies | central/central_server.py:129-130 | the object the server writes for a routed command (`Central.Encode`), read by the drone of that id, drains with a floor at 0 or recharges to capacity; any other drone or action leaves the battery unchanged; no written command stops a drone |
| Sensor.Spikes | sensor/sensor.py:41-51 | the temperature spike is the first reading with the override temperature; the humidity spike comes after it and also carries any spiked temperature |
| Sensor.RunConnection | sensor/sensor.py:29-53 | the loop as written emits a normal reading, then the configured spikes, then only normal readings; both overrides are cleared once an iteration has run |
| Sensor.ExpectedShape | sensor/sensor.py:31-53 | every emission carries the sensor id; spikes occur only right after the first normal reading; normal readings lie in [20,30] and [40,60] |
| Sensor.SpikesPerConnection | sensor/sensor.py:42-51 | a connection emits one temperature (humidity) spike iff it runs an iteration with that override still set |
| Sensor.SpikesOncePerProcess | sensor/sensor.py:25-51 | across any number of reconnects (`Sensor.Process`, each connection starting from the overrides the previous one left) each override is emitted at most once |

## Left out

- JSON text encoding and decoding and `common/message.py`: records and objects are datatypes, and decoding outcomes are variants of the line datatypes. The command object `Central.Encode` builds is assumed to reach the drone unchanged through `json.dumps` and `json.loads`.
- Rounding: summary averages are exact means and battery values exact levels. The source rounds them to 2 and 1 places.
- Wall-clock timestamps are opaque strings passed in. The monotonic clock is an elapsed-seconds parameter.
- Networking and scheduling: the servers, connect and reconnect loops with their back-off, the central-connection lock, sleeps and the thread-safe drain. Each step is modelled as an atomic operation.
- Send and write failures: a `Sent` cycle outcome and a `Wrote` dispatch outcome mean that a write was attempted. Failures are only logged.
- Drone.Listen: the end-of-stream and undecodable cases drop the reader in the source (see above); the model keeps the drone unchanged and does not represent reader state. `CommandPath.DispatchedCommandApplies` assumes the drone's reader is still live when the command arrives.
- Readings that have a `sensor_id` but lack temperature or humidity: the source stores them and then fails while logging. The model only takes complete readings.
- JSON values of unexpected types outside control messages, such as a numeric `drone_id` at the central server or a string temperature from a sensor, are not modelled.
- Lines longer than the stream reader's limit raise an error from `readline` that no handler catches. The model has no line length.
- Drone.HandleControl: validity of the battery is promised only for non-negative amounts. A negative drain amount raises the level, possibly above capacity, and the source does not check it.
- The disconnection anomaly of the sensor handler, because it never reaches the queue (see above).
- `drone/gui_app.py` and the GUI and logging code of the central server: presentation only.
- Logging of every kind.
