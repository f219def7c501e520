/** The sensor's emission sequence on one connection, and across reconnects. Each random
    draw becomes an input: a temperature and humidity chosen within their bounds and the
    clock's timestamp for that iteration. */
module Sensor {
  import opened Wrappers
  import opened Message

  /** The one-shot overrides are cleared once used, and that clearing outlives the
      connection. */
  datatype Config = Config(id: string, spikeTemp: Option<real>, spikeHum: Option<real>)

  datatype Draw = Draw(temperature: real, humidity: real, timestamp: string)

  predicate InBounds(d: Draw) {
    20.0 <= d.temperature <= 30.0 && 40.0 <= d.humidity <= 60.0
  }

  datatype Kind = Normal | TempSpike | HumSpike

  /** One send attempt: which send in the loop made it, and the message as it was then. */
  datatype Emission = Emission(kind: Kind, reading: Reading)

  function NormalReading(cfg: Config, d: Draw): Reading {
    Reading(cfg.id, d.temperature, d.humidity, d.timestamp)
  }

  /** The spike sends of the first iteration. The message is mutated in place, so a
      humidity spike also carries an earlier temperature spike. */
  function Spikes(cfg: Config, d: Draw): (r: seq<Emission>)
    ensures |r| == (if cfg.spikeTemp.Some? then 1 else 0) + (if cfg.spikeHum.Some? then 1 else 0)
    ensures cfg.spikeTemp.Some? ==>
      r[0] == Emission(TempSpike, NormalReading(cfg, d).(temperature := cfg.spikeTemp.value))
    ensures cfg.spikeHum.Some? ==>
      r[|r| - 1] == Emission(HumSpike, Reading(cfg.id, cfg.spikeTemp.GetOr(d.temperature),
                                               cfg.spikeHum.value, d.timestamp))
  {
    var t := d.temperature;
    var withTemp := Reading(cfg.id, cfg.spikeTemp.GetOr(t), d.humidity, d.timestamp);
    var withHum := withTemp.(humidity := cfg.spikeHum.GetOr(d.humidity));
    (if cfg.spikeTemp.Some? then [Emission(TempSpike, withTemp)] else [])
    + (if cfg.spikeHum.Some? then [Emission(HumSpike, withHum)] else [])
  }

  function Normals(cfg: Config, draws: seq<Draw>): (r: seq<Emission>)
    ensures |r| == |draws|
    ensures forall i :: 0 <= i < |draws| ==> r[i] == Emission(Normal, NormalReading(cfg, draws[i]))
  {
    seq(|draws|, i requires 0 <= i < |draws| => Emission(Normal, NormalReading(cfg, draws[i])))
  }

  /** The emissions of a connection that runs for `|draws|` iterations: a normal reading,
      the spikes, then only normal readings. */
  function Expected(cfg: Config, draws: seq<Draw>): seq<Emission> {
    if draws == [] then []
    else [Emission(Normal, NormalReading(cfg, draws[0]))] + Spikes(cfg, draws[0]) + Normals(cfg, draws[1..])
  }

  function Cleared(cfg: Config, draws: seq<Draw>): Config {
    if draws == [] then cfg else cfg.(spikeTemp := None, spikeHum := None)
  }

  /** One connection's loop, written as the source writes it: a `first` flag, a message
      mutated between sends, and the overrides cleared after their send. */
  method RunConnection(cfg: Config, draws: seq<Draw>) returns (sent: seq<Emission>, cfg': Config)
    ensures sent == Expected(cfg, draws)
    ensures cfg' == Cleared(cfg, draws)
  {
    sent := [];
    cfg' := cfg;
    var first := true;
    var i := 0;
    while i < |draws|
      invariant 0 <= i <= |draws|
      invariant first <==> i == 0
      invariant cfg' == Cleared(cfg, draws[..i])
      invariant i == 0 ==> sent == []
      invariant 0 < i ==> sent == [Emission(Normal, NormalReading(cfg, draws[0]))] + Spikes(cfg, draws[0])
                                   + Normals(cfg, draws[1..i])
    {
      var msg := NormalReading(cfg', draws[i]);
      sent := sent + [Emission(Normal, msg)];
      if first {
        if cfg'.spikeTemp.Some? {
          msg := msg.(temperature := cfg'.spikeTemp.value);
          sent := sent + [Emission(TempSpike, msg)];
          cfg' := cfg'.(spikeTemp := None);
        }
        if cfg'.spikeHum.Some? {
          msg := msg.(humidity := cfg'.spikeHum.value);
          sent := sent + [Emission(HumSpike, msg)];
          cfg' := cfg'.(spikeHum := None);
        }
        first := false;
      }
      i := i + 1;
    }
    assert draws[..i] == draws;
  }

  /** Every normal send is the configured sensor's reading drawn within bounds, and the
      spikes sit right after the first normal reading. */
  lemma ExpectedShape(cfg: Config, draws: seq<Draw>)
    requires draws != []
    requires forall i :: 0 <= i < |draws| ==> InBounds(draws[i])
    ensures var e := Expected(cfg, draws); var n := |Spikes(cfg, draws[0])| + 1;
      && e[0] == Emission(Normal, NormalReading(cfg, draws[0]))
      && (forall j :: 0 <= j < |e| ==> e[j].reading.sensorId == cfg.id)
      && (forall j :: 0 <= j < |e| && e[j].kind != Normal ==> 1 <= j < n)
      && (forall j :: 0 <= j < |e| && e[j].kind == Normal ==>
            20.0 <= e[j].reading.temperature <= 30.0 && 40.0 <= e[j].reading.humidity <= 60.0)
  {
  }

  function Count(e: seq<Emission>, k: Kind): nat {
    if e == [] then 0 else Count(e[..|e| - 1], k) + (if e[|e| - 1].kind == k then 1 else 0)
  }

  lemma {:induction false} CountAppend(a: seq<Emission>, b: seq<Emission>, k: Kind)
    ensures Count(a + b, k) == Count(a, k) + Count(b, k)
    decreases |b|
  {
    if b == [] {
      assert a + b == a;
    } else {
      var ab := a + b;
      assert ab[..|ab| - 1] == a + b[..|b| - 1];
      assert ab[|ab| - 1] == b[|b| - 1];
      CountAppend(a, b[..|b| - 1], k);
    }
  }

  lemma {:induction false} CountNormals(cfg: Config, draws: seq<Draw>, k: Kind)
    requires k != Normal
    ensures Count(Normals(cfg, draws), k) == 0
    decreases |draws|
  {
    if draws != [] {
      var init := draws[..|draws| - 1];
      assert Normals(cfg, draws)[..|draws| - 1] == Normals(cfg, init);
      CountNormals(cfg, init, k);
    }
  }

  /** A connection emits a temperature spike exactly when it runs at least one iteration
      with the override still set, and likewise for humidity. */
  lemma SpikesPerConnection(cfg: Config, draws: seq<Draw>)
    ensures Count(Expected(cfg, draws), TempSpike) == if draws != [] && cfg.spikeTemp.Some? then 1 else 0
    ensures Count(Expected(cfg, draws), HumSpike) == if draws != [] && cfg.spikeHum.Some? then 1 else 0
  {
    if draws != [] {
      var head := [Emission(Normal, NormalReading(cfg, draws[0]))];
      var sp := Spikes(cfg, draws[0]);
      var t: seq<Emission> := if cfg.spikeTemp.Some? then [sp[0]] else [];
      var h: seq<Emission> := if cfg.spikeHum.Some? then [sp[|sp| - 1]] else [];
      assert sp == t + h;
      CountAppend(t, h, TempSpike);
      CountAppend(t, h, HumSpike);
      assert Count(t, TempSpike) == |t| && Count(t, HumSpike) == 0 by {
        if t != [] { assert t[..0] == []; }
      }
      assert Count(h, HumSpike) == |h| && Count(h, TempSpike) == 0 by {
        if h != [] { assert h[..0] == []; }
      }
      CountAppend(head + sp, Normals(cfg, draws[1..]), TempSpike);
      CountAppend(head + sp, Normals(cfg, draws[1..]), HumSpike);
      CountAppend(head, sp, TempSpike);
      CountAppend(head, sp, HumSpike);
      assert head[..0] == [];
      CountNormals(cfg, draws[1..], TempSpike);
      CountNormals(cfg, draws[1..], HumSpike);
    }
  }

  /** The process's emissions over successive connections, each running for the length of
      its draw sequence, with the configuration carried across reconnects. */
  function Process(cfg: Config, conns: seq<seq<Draw>>): seq<Emission>
    decreases |conns|
  {
    if conns == [] then []
    else Expected(cfg, conns[0]) + Process(Cleared(cfg, conns[0]), conns[1..])
  }

  /** Each override is emitted at most once per process, however often it reconnects. */
  lemma {:induction false} SpikesOncePerProcess(cfg: Config, conns: seq<seq<Draw>>)
    ensures Count(Process(cfg, conns), TempSpike) <= if cfg.spikeTemp.Some? then 1 else 0
    ensures Count(Process(cfg, conns), HumSpike) <= if cfg.spikeHum.Some? then 1 else 0
    decreases |conns|
  {
    if conns != [] {
      var c := conns[0];
      SpikesPerConnection(cfg, c);
      SpikesOncePerProcess(Cleared(cfg, c), conns[1..]);
      CountAppend(Expected(cfg, c), Process(Cleared(cfg, c), conns[1..]), TempSpike);
      CountAppend(Expected(cfg, c), Process(Cleared(cfg, c), conns[1..]), HumSpike);
    }
  }
}
