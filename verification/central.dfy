/** The central server's per-line ingestion and command routing: a bounded history of
    received objects, and a last-writer-wins registry from drone id to the connection
    that most recently reported under it. */
module Central {
  import opened Wrappers
  import Bounded
  import Json

  const MaxHistory: nat := 200

  /** Connections are known by an identity handed out when they are accepted. */
  type ConnId = nat

  /** A decoded JSON object: its `drone_id` when present as a string, the rest kept opaque. */
  datatype Obj = Obj(droneId: Option<string>, body: string)

  /** `Undecodable` is a JSON syntax error, the one error the read loop catches.
      `NotUtf8` is a byte sequence that does not decode as UTF-8, and `NotAnObject` is
      valid JSON that is not an object (`obj.get` fails on it); neither is caught. */
  datatype Line = NotUtf8 | Undecodable | NotAnObject | Object(obj: Obj)

  datatype CentralState = CentralState(history: seq<Obj>, writers: map<string, ConnId>)

  ghost predicate Valid(s: CentralState) {
    |s.history| <= MaxHistory
  }

  /** A `drone_id` registers only when it is truthy, i.e. a non-empty string. */
  predicate Registers(o: Obj) {
    o.droneId.Some? && o.droneId.value != ""
  }

  /** `keepReading` is false when the line's error escapes the read loop and the
      connection's handler ends. */
  datatype Received = Received(state: CentralState, keepReading: bool)

  function Receive(s: CentralState, conn: ConnId, line: Line): (r: Received)
    requires Valid(s)
    ensures Valid(r.state)
    ensures r.keepReading <==> line.Undecodable? || line.Object?
    ensures !line.Object? ==> r.state == s
    ensures line.Object? ==>
      && r.state.history == Bounded.LastN(s.history + [line.obj], MaxHistory)
      && r.state.history[|r.state.history| - 1] == line.obj
      && (|s.history| < MaxHistory ==> r.state.history == s.history + [line.obj])
    ensures line.Object? && Registers(line.obj) ==>
      && r.state.writers.Keys == s.writers.Keys + {line.obj.droneId.value}
      && r.state.writers[line.obj.droneId.value] == conn
      && forall id :: id in s.writers && id != line.obj.droneId.value ==> r.state.writers[id] == s.writers[id]
    ensures line.Object? && !Registers(line.obj) ==> r.state.writers == s.writers
  {
    match line
    case NotUtf8 => Received(s, false)
    case Undecodable => Received(s, true)
    case NotAnObject => Received(s, false)
    case Object(o) =>
      var writers := if Registers(o) then s.writers[o.droneId.value := conn] else s.writers;
      Received(CentralState(Bounded.Push(s.history, o, MaxHistory), writers), true)
  }

  /** Closing a connection leaves the registry as it is: a stale entry stays routable. */
  function Disconnect(s: CentralState, conn: ConnId): (r: CentralState)
    ensures r.writers.Keys == s.writers.Keys
    ensures forall id :: id in s.writers ==> r.writers[id] == s.writers[id]
    ensures r.history == s.history
  {
    s
  }

  /** All lines of one connection, up to the end of the stream or a fatal line, then the
      connection's close. */
  function Session(s: CentralState, conn: ConnId, lines: seq<Line>): (r: CentralState)
    requires Valid(s)
    ensures Valid(r)
    decreases |lines|
  {
    if lines == [] then Disconnect(s, conn)
    else
      var step := Receive(s, conn, lines[0]);
      if step.keepReading then Session(step.state, conn, lines[1..]) else Disconnect(step.state, conn)
  }

  /** The objects a session stores: those before the first line that ends the handler. */
  function Stored(lines: seq<Line>): seq<Obj>
    decreases |lines|
  {
    if lines == [] || lines[0].NotUtf8? || lines[0].NotAnObject? then []
    else if lines[0].Undecodable? then Stored(lines[1..])
    else [lines[0].obj] + Stored(lines[1..])
  }

  /** The history after a session is the newest 200 of what it held plus everything
      the session stored, in arrival order. */
  lemma {:induction false} SessionHistory(s: CentralState, conn: ConnId, lines: seq<Line>)
    requires Valid(s)
    ensures Session(s, conn, lines).history == Bounded.LastN(s.history + Stored(lines), MaxHistory)
    decreases |lines|
  {
    if lines == [] || !Receive(s, conn, lines[0]).keepReading {
      SessionStops(s, conn, lines);
    } else {
      SessionHistory(Receive(s, conn, lines[0]).state, conn, lines[1..]);
      SessionContinues(s, conn, lines);
    }
  }

  /** A session that ends at its first line stores nothing. */
  lemma SessionStops(s: CentralState, conn: ConnId, lines: seq<Line>)
    requires Valid(s)
    requires lines == [] || !Receive(s, conn, lines[0]).keepReading
    ensures Session(s, conn, lines).history == Bounded.LastN(s.history + Stored(lines), MaxHistory)
  {
    assert Stored(lines) == [];
    assert s.history + Stored(lines) == s.history;
  }

  /** One line read and kept reading: the rest of the session continues from its state. */
  lemma SessionContinues(s: CentralState, conn: ConnId, lines: seq<Line>)
    requires Valid(s)
    requires lines != [] && Receive(s, conn, lines[0]).keepReading
    requires var s1 := Receive(s, conn, lines[0]).state;
      Session(s1, conn, lines[1..]).history == Bounded.LastN(s1.history + Stored(lines[1..]), MaxHistory)
    ensures Session(s, conn, lines).history == Bounded.LastN(s.history + Stored(lines), MaxHistory)
  {
    var s1 := Receive(s, conn, lines[0]).state;
    assert Session(s, conn, lines) == Session(s1, conn, lines[1..]);
    if lines[0].Undecodable? {
      assert s1 == s;
      assert Stored(lines) == Stored(lines[1..]);
    } else {
      var o := lines[0].obj;
      var rest := Stored(lines[1..]);
      assert Stored(lines) == [o] + rest;
      calc {
        Session(s, conn, lines).history;
        Session(s1, conn, lines[1..]).history;
        Bounded.LastN(s1.history + rest, MaxHistory);
        Bounded.LastN(Bounded.LastN(s.history + [o], MaxHistory) + rest, MaxHistory);
        { Bounded.LastNAfterOne(s.history, o, rest, MaxHistory); }
        Bounded.LastN(s.history + ([o] + rest), MaxHistory);
      }
    }
  }

  /** No session, whatever it sends and however it ends, unregisters a drone id. */
  lemma {:induction false} SessionKeepsRegistrations(s: CentralState, conn: ConnId, lines: seq<Line>)
    requires Valid(s)
    ensures s.writers.Keys <= Session(s, conn, lines).writers.Keys
    decreases |lines|
  {
    if lines != [] {
      var step := Receive(s, conn, lines[0]);
      if step.keepReading {
        SessionKeepsRegistrations(step.state, conn, lines[1..]);
      }
    }
  }

  datatype Command = Command(target: string, action: string, amount: int)

  /** `RoutingMiss` is logged and nothing is written. */
  datatype Dispatched = RoutingMiss | Wrote(conn: ConnId, cmd: Command)

  /** Route one battery command by the registry; the state is only read. */
  function Dispatch(s: CentralState, target: string, action: string, amount: int): (r: Dispatched)
    ensures r.RoutingMiss? <==> target !in s.writers
    ensures r.Wrote? ==> r.conn == s.writers[target] && r.cmd == Command(target, action, amount)
  {
    if target in s.writers then Wrote(s.writers[target], Command(target, action, amount))
    else RoutingMiss
  }

  /** The object a command is written as, one JSON line on the drone's connection. */
  function Encode(cmd: Command): Json.Object {
    map["type" := Json.Str("battery"), "target" := Json.Str(cmd.target),
        "action" := Json.Str(cmd.action), "amount" := Json.Num(cmd.amount as real)]
  }

  /** Last writer wins: after a connection reports under an id, commands for that id go to
      that connection, until another connection reports under it. */
  lemma ReceiveThenDispatch(s: CentralState, conn: ConnId, o: Obj, action: string, amount: int)
    requires Valid(s) && Registers(o)
    ensures Dispatch(Receive(s, conn, Object(o)).state, o.droneId.value, action, amount)
            == Wrote(conn, Command(o.droneId.value, action, amount))
  {
  }
}
