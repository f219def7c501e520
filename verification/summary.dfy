/** The drone's summary builder: one pass over the rolling store producing averages
    over the newest reading of each sensor, range anomalies for those readings, a
    `battery_low` anomaly while returning, and the queued events. */
module Summary {
  import opened Message
  import opened RollingStore
  import Battery

  const TempLow: real := 0.0
  const TempHigh: real := 60.0
  const HumLow: real := 0.0
  const HumHigh: real := 100.0

  datatype AnomalyKind = TemperatureAnomaly | HumidityAnomaly | BatteryLow | Disconnection
  datatype AnomalyValue = Number(x: real) | Text(s: string)
  /** `sensorId` is "-" for an anomaly of the drone itself. */
  datatype Anomaly = Anomaly(sensorId: string, kind: AnomalyKind, value: AnomalyValue, timestamp: string)

  predicate TempInRange(t: real) {
    TempLow <= t <= TempHigh
  }

  predicate HumInRange(h: real) {
    HumLow <= h <= HumHigh
  }

  function TempAnomaly(r: Reading): Anomaly {
    Anomaly(r.sensorId, TemperatureAnomaly, Number(r.temperature), r.timestamp)
  }

  function HumAnomaly(r: Reading): Anomaly {
    Anomaly(r.sensorId, HumidityAnomaly, Number(r.humidity), r.timestamp)
  }

  function Last<T>(s: seq<T>): T
    requires s != []
  {
    s[|s| - 1]
  }

  /** The newest reading of every key of `keys` whose window is non-empty, in key order. */
  function NewestOf(windows: map<string, seq<Reading>>, keys: seq<string>): (r: seq<Reading>)
    ensures |r| <= |keys|
    ensures forall x :: x in r ==>
      exists k :: k in keys && k in windows && windows[k] != [] && x == Last(windows[k])
    ensures (forall i :: 0 <= i < |keys| ==> keys[i] in windows && windows[keys[i]] != []) ==>
      |r| == |keys| && forall i :: 0 <= i < |keys| ==> r[i] == Last(windows[keys[i]])
  {
    if keys == [] then []
    else
      var k := keys[|keys| - 1];
      var rest := NewestOf(windows, keys[..|keys| - 1]);
      if k in windows && windows[k] != [] then rest + [Last(windows[k])] else rest
  }

  function Newest(st: Store): seq<Reading> {
    NewestOf(st.windows, st.order)
  }

  /** In a well-formed store every sensor contributes exactly one reading, the last of its
      window, and the final one belongs to the most recently first-seen sensor. */
  lemma NewestOnePerSensor(st: Store)
    requires Valid(st)
    ensures |Newest(st)| == |st.order|
    ensures forall i :: 0 <= i < |st.order| ==> Newest(st)[i] == Last(st.windows[st.order[i]])
    ensures Newest(st) == [] <==> st.order == []
  {
  }

  function Sum(xs: seq<real>): real {
    if xs == [] then 0.0 else Sum(xs[..|xs| - 1]) + xs[|xs| - 1]
  }

  function Temperatures(rs: seq<Reading>): (ts: seq<real>)
    ensures |ts| == |rs|
    ensures forall i :: 0 <= i < |rs| ==> ts[i] == rs[i].temperature
  {
    seq(|rs|, i requires 0 <= i < |rs| => rs[i].temperature)
  }

  function Humidities(rs: seq<Reading>): (hs: seq<real>)
    ensures |hs| == |rs|
    ensures forall i :: 0 <= i < |rs| ==> hs[i] == rs[i].humidity
  {
    seq(|rs|, i requires 0 <= i < |rs| => rs[i].humidity)
  }

  /** Python's `statistics.mean` (the rounding to two places is not modelled). */
  function Mean(xs: seq<real>): real
    requires xs != []
  {
    Sum(xs) / (|xs| as real)
  }

  lemma {:induction false} SumWithin(xs: seq<real>, lo: real, hi: real)
    requires forall i :: 0 <= i < |xs| ==> lo <= xs[i] <= hi
    ensures lo * (|xs| as real) <= Sum(xs) <= hi * (|xs| as real)
    decreases |xs|
  {
    if xs != [] {
      var init := xs[..|xs| - 1];
      SumWithin(init, lo, hi);
      assert lo * (|xs| as real) == lo * (|init| as real) + lo;
      assert hi * (|xs| as real) == hi * (|init| as real) + hi;
    }
  }

  /** A mean lies between any bounds that hold of every element. */
  lemma MeanWithin(xs: seq<real>, lo: real, hi: real)
    requires xs != []
    requires forall i :: 0 <= i < |xs| ==> lo <= xs[i] <= hi
    ensures lo <= Mean(xs) <= hi
  {
    SumWithin(xs, lo, hi);
    var n := |xs| as real;
    assert Sum(xs) / n >= lo by {
      assert Sum(xs) >= lo * n;
    }
    assert Sum(xs) / n <= hi by {
      assert Sum(xs) <= hi * n;
    }
  }

  /** The range anomalies of `newest`: per reading, temperature before humidity. */
  function Scan(newest: seq<Reading>): (r: seq<Anomaly>)
    ensures forall a :: a in r ==>
      (exists x :: x in newest &&
         ((a == TempAnomaly(x) && !TempInRange(x.temperature)) || (a == HumAnomaly(x) && !HumInRange(x.humidity))))
    ensures forall x :: x in newest ==> (TempAnomaly(x) in r <==> !TempInRange(x.temperature))
    ensures forall x :: x in newest ==> (HumAnomaly(x) in r <==> !HumInRange(x.humidity))
  {
    if newest == [] then []
    else
      var x := newest[0];
      var t := if TempInRange(x.temperature) then [] else [TempAnomaly(x)];
      var h := if HumInRange(x.humidity) then [] else [HumAnomaly(x)];
      t + h + Scan(newest[1..])
  }

  function CountKind(s: seq<Anomaly>, k: AnomalyKind): nat {
    if s == [] then 0 else CountKind(s[..|s| - 1], k) + (if s[|s| - 1].kind == k then 1 else 0)
  }

  lemma {:induction false} CountKindAppend(a: seq<Anomaly>, b: seq<Anomaly>, k: AnomalyKind)
    ensures CountKind(a + b, k) == CountKind(a, k) + CountKind(b, k)
    decreases |b|
  {
    if b == [] {
      assert a + b == a;
    } else {
      var ab := a + b;
      assert ab[..|ab| - 1] == a + b[..|b| - 1];
      assert ab[|ab| - 1] == b[|b| - 1];
      CountKindAppend(a, b[..|b| - 1], k);
    }
  }

  lemma {:induction false} CountKindAbsent(s: seq<Anomaly>, k: AnomalyKind)
    requires forall i :: 0 <= i < |s| ==> s[i].kind != k
    ensures CountKind(s, k) == 0
    decreases |s|
  {
    if s != [] {
      CountKindAbsent(s[..|s| - 1], k);
    }
  }

  /** The guard in front of the battery-low anomaly. */
  predicate HasKind(s: seq<Anomaly>, k: AnomalyKind) {
    exists i :: 0 <= i < |s| && s[i].kind == k
  }

  /** The scan yields range anomalies only, so the battery-low guard that inspects it can
      never hold it back: while returning, every summary carries one. */
  lemma ScanHasNoBatteryLow(newest: seq<Reading>)
    ensures !HasKind(Scan(newest), BatteryLow)
    ensures CountKind(Scan(newest), BatteryLow) == 0
  {
    var s := Scan(newest);
    forall i | 0 <= i < |s|
      ensures s[i].kind != BatteryLow
    {
      assert s[i] in s;
    }
    CountKindAbsent(s, BatteryLow);
  }

  /** The list the builder assembles: scan results, then the battery-low anomaly when
      returning, then the queued events. */
  lemma AssembledAnomalies(newest: seq<Reading>, low: seq<Anomaly>, pending: seq<Anomaly>, returning: bool)
    requires returning ==> |low| == 1 && low[0].kind == BatteryLow
    requires !returning ==> low == []
    ensures var an := Scan(newest) + low + pending;
      && |pending| <= |an|
      && an[|an| - |pending|..] == pending
      && an[..|an| - |pending|] == Scan(newest) + low
      && CountKind(an, BatteryLow) == (if returning then 1 else 0) + CountKind(pending, BatteryLow)
  {
    var an := Scan(newest) + low + pending;
    assert an[..|an| - |pending|] == Scan(newest) + low;
    assert an[|an| - |pending|..] == pending;
    ScanHasNoBatteryLow(newest);
    CountKindAppend(Scan(newest) + low, pending, BatteryLow);
    CountKindAppend(Scan(newest), low, BatteryLow);
    if returning {
      assert low == [] + [low[0]];
    }
  }

  /** The range-anomaly part of the list is exactly the scan of the newest readings, so the
      battery-low anomaly added after it cannot be mistaken for a range one. */
  lemma ScanPrefix(newest: seq<Reading>, low: seq<Anomaly>)
    requires forall i :: 0 <= i < |low| ==> low[i].kind == BatteryLow
    ensures forall x :: x in newest ==>
      (TempAnomaly(x) in Scan(newest) + low <==> !TempInRange(x.temperature))
    ensures forall x :: x in newest ==>
      (HumAnomaly(x) in Scan(newest) + low <==> !HumInRange(x.humidity))
  {
  }

  /** The time and clock readings the builder consumes: each `as_percent` call ticks the
      battery by its own elapsed interval, and each anomaly or summary stamps the clock. */
  datatype Env = Env(lowElapsed: real, reportElapsed: real, lowStamp: string, reportStamp: string)

  predicate EnvOk(env: Env) {
    0.0 <= env.lowElapsed && 0.0 <= env.reportElapsed
  }

  datatype Report = Report(droneId: string, battery: real, avgTemp: real, avgHum: real,
                           latestTemp: real, latestHum: real, anomalies: seq<Anomaly>, timestamp: string)

  /** `NothingToReport` is the empty dictionary; `NoAverages` is the type error raised
      by rounding a missing average when there are anomalies but no readings. */
  datatype Built = NothingToReport | NoAverages | Reported(report: Report)

  datatype BuildResult = BuildResult(built: Built, battery: Battery.Battery)

  function BatteryLowAnomaly(level: real, stamp: string): Anomaly {
    Anomaly("-", BatteryLow, Number(level), stamp)
  }

  /** The anomaly list of one summary and the battery after the ticks it took. */
  datatype Assembled = Assembled(anomalies: seq<Anomaly>, battery: Battery.Battery)

  /** Scan the newest readings, add the battery-low anomaly (reading the percentage, which
      ticks the battery) when the guard lets it through, then merge the queued events. */
  function Assemble(newest: seq<Reading>, pending: seq<Anomaly>, returning: bool,
                    b: Battery.Battery, env: Env): (r: Assembled)
    requires EnvOk(env)
    ensures r.battery == if returning then Battery.Tick(b, env.lowElapsed) else b
    ensures r.anomalies == Scan(newest)
                           + (if returning then [BatteryLowAnomaly(Battery.Tick(b, env.lowElapsed).level, env.lowStamp)]
                              else [])
                           + pending
    ensures newest == [] ==> (r.anomalies == [] <==> !returning && pending == [])
    ensures |pending| <= |r.anomalies|
    ensures r.anomalies[|r.anomalies| - |pending|..] == pending
    ensures forall x :: x in newest ==>
      (TempAnomaly(x) in r.anomalies[..|r.anomalies| - |pending|] <==> !TempInRange(x.temperature))
    ensures forall x :: x in newest ==>
      (HumAnomaly(x) in r.anomalies[..|r.anomalies| - |pending|] <==> !HumInRange(x.humidity))
    ensures CountKind(r.anomalies, BatteryLow) == (if returning then 1 else 0) + CountKind(pending, BatteryLow)
    ensures returning ==> BatteryLowAnomaly(Battery.Tick(b, env.lowElapsed).level, env.lowStamp) in r.anomalies
  {
    var scan := Scan(newest);
    ScanHasNoBatteryLow(newest);
    var lowDue := returning && !HasKind(scan, BatteryLow);
    var p1 := Battery.AsPercent(b, env.lowElapsed);
    var low := if lowDue then [BatteryLowAnomaly(p1.value, env.lowStamp)] else [];
    AssembledAnomalies(newest, low, pending, returning);
    ScanPrefix(newest, low);
    assert returning ==> low[0] in scan + low + pending;
    Assembled(scan + low + pending, if lowDue then p1.battery else b)
  }

  /** Build one summary. The pending buffer is consumed whatever the outcome. */
  function Build(droneId: string, st: Store, pending: seq<Anomaly>, returning: bool,
                 b: Battery.Battery, env: Env): (r: BuildResult)
    requires EnvOk(env)
    ensures r.built.NothingToReport? <==> Newest(st) == [] && !returning && pending == []
    ensures r.built.NoAverages? <==> Newest(st) == [] && (returning || pending != [])
    ensures r.built.NothingToReport? ==> r.battery == b
    ensures !r.built.NothingToReport? ==>
      r.battery == Battery.Tick(if returning then Battery.Tick(b, env.lowElapsed) else b, env.reportElapsed)
    ensures r.built.Reported? ==> var rep := r.built.report; var newest := Newest(st);
      && rep.droneId == droneId
      && rep.battery == r.battery.level
      && rep.timestamp == env.reportStamp
      && newest != []
      && rep.avgTemp == Mean(Temperatures(newest))
      && rep.avgHum == Mean(Humidities(newest))
      && rep.latestTemp == Last(newest).temperature
      && rep.latestHum == Last(newest).humidity
      && rep.anomalies == Assemble(newest, pending, returning, b, env).anomalies
  {
    var newest := Newest(st);
    var a := Assemble(newest, pending, returning, b, env);
    if newest == [] && a.anomalies == [] then
      BuildResult(NothingToReport, a.battery)
    else
      var p2 := Battery.AsPercent(a.battery, env.reportElapsed);
      if newest == [] then
        BuildResult(NoAverages, p2.battery)
      else
        var rep := Report(droneId, p2.value,
                          Mean(Temperatures(newest)), Mean(Humidities(newest)),
                          Last(newest).temperature, Last(newest).humidity,
                          a.anomalies, env.reportStamp);
        BuildResult(Reported(rep), p2.battery)
  }

  /** A reading that has just been appended is among the newest readings, and is the
      last of them when its sensor is the last key in insertion order. */
  lemma AppendedIsNewest(st: Store, x: Reading)
    requires Valid(st)
    ensures x in Newest(Append(st, x))
    ensures x.sensorId !in st.windows || Last(st.order) == x.sensorId ==> Last(Newest(Append(st, x))) == x
  {
    var st' := Append(st, x);
    var k := x.sensorId;
    AppendPreservesValid(st, x);
    NewestOnePerSensor(st');
    assert k in st'.windows;
    var i :| 0 <= i < |st'.order| && st'.order[i] == k;
    assert Last(st'.windows[k]) == x;
    assert Newest(st')[i] == x;
    if x.sensorId !in st.windows || Last(st.order) == x.sensorId {
      assert Last(st'.order) == k;
    }
  }

  /** An out-of-range temperature that has just arrived is reported in the next summary,
      which therefore cannot be empty, and is the latest temperature when its sensor is
      the last one first seen. */
  lemma OutlierReported(droneId: string, st: Store, x: Reading, pending: seq<Anomaly>,
                        returning: bool, b: Battery.Battery, env: Env)
    requires Valid(st) && EnvOk(env)
    requires !TempInRange(x.temperature)
    ensures var r := Build(droneId, Append(st, x), pending, returning, b, env);
      && r.built.Reported?
      && TempAnomaly(x) in r.built.report.anomalies
      && (x.sensorId !in st.windows || Last(st.order) == x.sensorId ==>
            r.built.report.latestTemp == x.temperature)
  {
    var newest := Newest(Append(st, x));
    AppendedIsNewest(st, x);
    var a := Assemble(newest, pending, returning, b, env);
    assert TempAnomaly(x) in a.anomalies[..|a.anomalies| - |pending|];
  }
}
