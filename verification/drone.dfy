/** The drone edge node as pure steps over its state: the periodic forward cycle
    (tick, returning/normal transition, build, shape) and the handling of one control
    message from the central server. */
module Drone {
  import opened Wrappers
  import opened RollingStore
  import opened Summary
  import Battery
  import Json

  const LowThreshold: real := 20.0
  const Capacity: real := 100.0
  /** Percent per minute. */
  const DrainRate: real := 2.0

  datatype Drone = Drone(id: string, store: Store, pending: seq<Anomaly>,
                         battery: Battery.Battery, returning: bool)

  ghost predicate Valid(d: Drone) {
    RollingStore.Valid(d.store) && Battery.Valid(d.battery)
  }

  /** A freshly constructed drone: empty store, nothing queued, full battery, not returning. */
  function New(id: string): (d: Drone)
    ensures Valid(d)
    ensures d.battery.level == d.battery.capacity == Capacity && d.battery.drainRate == DrainRate
    ensures !d.returning && d.pending == [] && d.store.order == []
    ensures d.id == id
  {
    RollingStore.EmptyIsValid();
    Drone(id, RollingStore.Empty, [], Battery.New(Capacity, DrainRate), false)
  }

  /** The returning/normal check made once per cycle. */
  function Transition(returning: bool, level: real): (r: bool)
    ensures r <==> level < LowThreshold
    ensures r != returning <==> (if returning then LowThreshold <= level else level < LowThreshold)
  {
    if level < LowThreshold && !returning then true
    else if level >= LowThreshold && returning then false
    else returning
  }

  datatype Averages = Averages(temperature: real, humidity: real)

  /** What is sent upstream: a built summary whose averages are dropped while returning. */
  datatype Payload = Payload(droneId: string, battery: real, averages: Option<Averages>,
                             latestTemp: real, latestHum: real, anomalies: seq<Anomaly>,
                             timestamp: string, returning: bool)

  function Shape(rep: Report, returning: bool): (p: Payload)
    ensures p.returning == returning
    ensures p.averages.None? <==> returning
    ensures p.averages.Some? ==> p.averages.value == Averages(rep.avgTemp, rep.avgHum)
    ensures p.droneId == rep.droneId && p.battery == rep.battery && p.timestamp == rep.timestamp
    ensures p.latestTemp == rep.latestTemp && p.latestHum == rep.latestHum
    ensures p.anomalies == rep.anomalies
  {
    var avg := if returning then None else Some(Averages(rep.avgTemp, rep.avgHum));
    Payload(rep.droneId, rep.battery, avg, rep.latestTemp, rep.latestHum,
            rep.anomalies, rep.timestamp, returning)
  }

  /** A non-returning payload still holds the whole summary it was shaped from. */
  function Unshape(p: Payload): (rep: Report)
    requires p.averages.Some?
  {
    Report(p.droneId, p.battery, p.averages.value.temperature, p.averages.value.humidity,
           p.latestTemp, p.latestHum, p.anomalies, p.timestamp)
  }

  lemma ShapeRoundTrip(rep: Report)
    ensures Unshape(Shape(rep, false)) == rep
    ensures Shape(Unshape(Shape(rep, false)), false) == Shape(rep, false)
  {
  }

  /** `Crashed` is the builder's type error. Nothing catches it: it escapes the forward task
      and, through the `gather` that runs the three tasks, stops the whole drone process. */
  datatype CycleOutcome = Sent(payload: Payload) | Skipped | Crashed

  datatype CycleResult = CycleResult(drone: Drone, outcome: CycleOutcome)

  /** The build-and-send half of a cycle, once the battery is ticked to `b` and the
      returning flag decided. */
  function Forward(d: Drone, b: Battery.Battery, returning: bool, env: Env): (r: CycleResult)
    requires EnvOk(env)
    ensures r.drone == d.(battery := r.drone.battery, returning := returning, pending := [])
    ensures r.outcome.Skipped? <==> Newest(d.store) == [] && d.pending == [] && !returning
    ensures r.outcome.Crashed? <==> Newest(d.store) == [] && (d.pending != [] || returning)
    ensures r.drone.battery == if r.outcome.Skipped? then b
                               else Battery.Tick(if returning then Battery.Tick(b, env.lowElapsed) else b,
                                                 env.reportElapsed)
    ensures r.outcome.Sent? ==> var p := r.outcome.payload; var newest := Newest(d.store);
      && newest != []
      && p.returning == returning
      && (p.averages.None? <==> returning)
      && p.droneId == d.id
      && p.battery == r.drone.battery.level
      && (!returning ==> p.averages == Some(Averages(Mean(Temperatures(newest)), Mean(Humidities(newest)))))
      && p.latestTemp == Last(newest).temperature
      && p.latestHum == Last(newest).humidity
      && p.timestamp == env.reportStamp
      && p.anomalies == Assemble(newest, d.pending, returning, b, env).anomalies
  {
    var built := Build(d.id, d.store, d.pending, returning, b, env);
    var d' := d.(battery := built.battery, returning := returning, pending := []);
    match built.built
    case NothingToReport => CycleResult(d', Skipped)
    case NoAverages => CycleResult(d', Crashed)
    case Reported(rep) => CycleResult(d', Sent(Shape(rep, returning)))
  }

  /** One forward cycle after its sleep: `elapsed` seconds since the previous tick, then
      the clock readings consumed while building. */
  function Cycle(d: Drone, elapsed: real, env: Env): (r: CycleResult)
    requires 0.0 <= elapsed && EnvOk(env)
    ensures r.drone.returning <==> Battery.Tick(d.battery, elapsed).level < LowThreshold
    ensures r.drone.id == d.id && r.drone.store == d.store && r.drone.pending == []
    ensures Valid(d) ==> Valid(r.drone)
    ensures r.outcome.Skipped? <==>
      Newest(d.store) == [] && d.pending == [] && LowThreshold <= Battery.Tick(d.battery, elapsed).level
    ensures r.outcome.Crashed? <==>
      Newest(d.store) == [] && (d.pending != [] || Battery.Tick(d.battery, elapsed).level < LowThreshold)
    ensures var t := Battery.Tick(d.battery, elapsed);
      r.drone.battery == if r.outcome.Skipped? then t
                         else Battery.Tick(if r.drone.returning then Battery.Tick(t, env.lowElapsed) else t,
                                           env.reportElapsed)
    ensures r.outcome.Sent? ==> var p := r.outcome.payload; var newest := Newest(d.store);
      && newest != []
      && p.returning == r.drone.returning
      && (p.averages.None? <==> r.drone.returning)
      && p.droneId == d.id
      && p.battery == r.drone.battery.level
      && (!p.returning ==> p.averages == Some(Averages(Mean(Temperatures(newest)), Mean(Humidities(newest)))))
      && p.latestTemp == Last(newest).temperature
      && p.latestHum == Last(newest).humidity
      && p.timestamp == env.reportStamp
      && CountKind(p.anomalies, BatteryLow) == (if p.returning then 1 else 0) + CountKind(d.pending, BatteryLow)
      && |d.pending| <= |p.anomalies|
      && p.anomalies[|p.anomalies| - |d.pending|..] == d.pending
  {
    var b := Battery.Tick(d.battery, elapsed);
    Forward(d, b, Transition(d.returning, b.level), env)
  }

  /** A line read from the central connection. `NotUtf8` is a byte sequence that does not
      decode as UTF-8; `NotAnObject` is valid JSON that is not an object, on which
      `msg.get` fails. */
  datatype ControlLine = EndOfStream | NotUtf8 | Undecodable | NotAnObject | Decoded(msg: Json.Object)

  /** `ReaderDropped` forgets the inbound side of the central connection. Only a reconnect
      restores it, and a reconnect happens only after a summary fails to send, so while
      sends keep succeeding the drone reads no further control message.
      `ListenerCrashed` is an error the listener does not catch: it escapes the listening
      task, and through the `gather` that runs the three tasks it stops the whole drone
      process. */
  datatype ListenOutcome = Handled(battery: Battery.Battery) | ReaderDropped | ListenerCrashed

  /** A message is for this drone when its `type` is the string "battery" and its `target`
      the string of the drone's id. */
  predicate Addressed(msg: Json.Object, id: string) {
    Json.Get(msg, "type") == Some(Json.Str("battery")) && Json.Get(msg, "target") == Some(Json.Str(id))
  }

  /** What Python subtracts for a JSON value: a number, or a boolean as 0 or 1; a string,
      null, an array or an object raises a type error. */
  function AsNumber(v: Json.Value): Option<real> {
    match v
    case Num(x) => Some(x)
    case Bool(b) => Some(if b then 1.0 else 0.0)
    case _ => None
  }

  /** The amount a drain subtracts: `amount`, defaulting to 0 when absent. */
  function DrainAmount(msg: Json.Object): Option<real> {
    if "amount" in msg then AsNumber(msg["amount"]) else Some(0.0)
  }

  function HandleControl(b: Battery.Battery, id: string, line: ControlLine): (r: ListenOutcome)
    ensures r.ReaderDropped? <==> line.EndOfStream? || line.Undecodable?
    ensures r.ListenerCrashed? <==>
      || line.NotUtf8?
      || line.NotAnObject?
      || (&& line.Decoded?
          && Addressed(line.msg, id)
          && ("action" !in line.msg || (line.msg["action"] == Json.Str("drain") && DrainAmount(line.msg).None?)))
    ensures r.Handled? ==> r.battery.capacity == b.capacity && r.battery.drainRate == b.drainRate
    ensures r.Handled? && !Addressed(line.msg, id) ==> r.battery == b
    ensures r.Handled? && Addressed(line.msg, id) ==>
      if line.msg["action"] == Json.Str("drain") then
        r.battery.level == Battery.Max(0.0, b.level - DrainAmount(line.msg).value)
      else if line.msg["action"] == Json.Str("recharge") then
        r.battery.level == b.capacity
      else
        r.battery == b
    ensures r.Handled? && Battery.Valid(b) && 0.0 <= DrainAmount(line.msg).GetOr(0.0) ==> Battery.Valid(r.battery)
  {
    match line
    case EndOfStream => ReaderDropped
    case Undecodable => ReaderDropped
    case NotUtf8 => ListenerCrashed
    case NotAnObject => ListenerCrashed
    case Decoded(msg) =>
      if !Addressed(msg, id) then Handled(b)
      else if "action" !in msg then ListenerCrashed
      else if msg["action"] == Json.Str("drain") then
        match DrainAmount(msg)
        case None => ListenerCrashed
        case Some(x) => Handled(Battery.Drain(b, x))
      else if msg["action"] == Json.Str("recharge") then Handled(Battery.Charge(b))
      else Handled(b)
  }

  /** The listener's view of the battery is the only thing a control message changes,
      and it changes exactly as `HandleControl` says. */
  function Listen(d: Drone, line: ControlLine): (r: Option<Drone>)
    ensures r.Some? ==> r.value == d.(battery := r.value.battery)
    ensures r.None? <==> HandleControl(d.battery, d.id, line).ListenerCrashed?
    ensures HandleControl(d.battery, d.id, line).Handled? ==>
      r == Some(d.(battery := HandleControl(d.battery, d.id, line).battery))
    ensures HandleControl(d.battery, d.id, line).ReaderDropped? ==> r == Some(d)
  {
    match HandleControl(d.battery, d.id, line)
    case Handled(b) => Some(d.(battery := b))
    case ReaderDropped => Some(d)
    case ListenerCrashed => None
  }
}
