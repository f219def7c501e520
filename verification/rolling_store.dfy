/** The drone's per-sensor rolling store: a window of at most ten readings per sensor
    id, with sensor ids kept in first-seen order (a `defaultdict` of bounded deques). */
module RollingStore {
  import opened Wrappers
  import opened Message
  import Bounded

  const RollingSize: nat := 10

  /** `order` lists the keys of `windows` in insertion order. */
  datatype Store = Store(order: seq<string>, windows: map<string, seq<Reading>>)

  const Empty := Store([], map[])

  /** Every window is within the capacity of its deque. */
  ghost predicate WithinCapacity(st: Store) {
    forall k :: k in st.windows ==> |st.windows[k]| <= RollingSize
  }

  ghost predicate Valid(st: Store) {
    && (forall i, j :: 0 <= i < j < |st.order| ==> st.order[i] != st.order[j])
    && (forall k :: k in st.windows <==> k in st.order)
    && WithinCapacity(st)
    && (forall k :: k in st.windows ==> st.windows[k] != [])
    && (forall k, i :: k in st.windows && 0 <= i < |st.windows[k]| ==> st.windows[k][i].sensorId == k)
  }

  /** The window of sensor `k`; a sensor never seen has an empty one. */
  function Window(st: Store, k: string): seq<Reading> {
    if k in st.windows then st.windows[k] else []
  }

  lemma EmptyIsValid()
    ensures Valid(Empty) && WithinCapacity(Empty)
  {
  }

  /** Store one reading under its own sensor id. */
  function Append(st: Store, r: Reading): (st': Store)
    requires |Window(st, r.sensorId)| <= RollingSize
    ensures WithinCapacity(st) ==> WithinCapacity(st')
    ensures Window(st', r.sensorId) == Bounded.LastN(Window(st, r.sensorId) + [r], RollingSize)
    ensures var w := Window(st', r.sensorId); |w| > 0 && w[|w| - 1] == r
    ensures forall k :: k != r.sensorId ==> Window(st', k) == Window(st, k)
    ensures r.sensorId in st.windows ==> st'.order == st.order
    ensures r.sensorId !in st.windows ==> st'.order == st.order + [r.sensorId]
  {
    var k := r.sensorId;
    var w := Bounded.Push(Window(st, k), r, RollingSize);
    var order := if k in st.windows then st.order else st.order + [k];
    Store(order, st.windows[k := w])
  }

  /** The store stays well formed: keys distinct and in step with the windows, every
      window non-empty and within capacity, every reading under its own id. */
  lemma AppendPreservesValid(st: Store, r: Reading)
    requires |Window(st, r.sensorId)| <= RollingSize
    ensures Valid(st) ==> Valid(Append(st, r))
  {
    if Valid(st) {
      var k := r.sensorId;
      var w := Window(Append(st, r), k);
      assert forall i :: 0 <= i < |w| ==> w[i] == r || w[i] in Window(st, k);
    }
  }

  /** One line read on a sensor connection: a record with a `sensor_id`, or a line that
      does not decode or lacks that field (`None`). */
  datatype Ingest = Ingest(store: Store, open: bool)

  /** A bad line is not skipped: the decode or key error escapes the read loop and the
      connection ends, leaving the store as it was. */
  function HandleLine(st: Store, line: Option<Reading>): (r: Ingest)
    requires WithinCapacity(st)
    ensures WithinCapacity(r.store)
    ensures Valid(st) ==> Valid(r.store)
    ensures r.open <==> line.Some?
    ensures line.None? ==> r.store == st
    ensures line.Some? ==> r.store == Append(st, line.value)
  {
    match line
    case None => Ingest(st, false)
    case Some(reading) =>
      AppendPreservesValid(st, reading);
      Ingest(Append(st, reading), true)
  }

  /** The lines of one connection, read until the stream ends or a bad line ends it. */
  function Session(st: Store, lines: seq<Option<Reading>>): (st': Store)
    requires WithinCapacity(st)
    ensures WithinCapacity(st')
    ensures Valid(st) ==> Valid(st')
    decreases |lines|
  {
    if lines == [] then st
    else
      var r := HandleLine(st, lines[0]);
      if r.open then Session(r.store, lines[1..]) else r.store
  }

  function Readings(lines: seq<Option<Reading>>): seq<Reading>
    requires forall i :: 0 <= i < |lines| ==> lines[i].Some?
  {
    seq(|lines|, i requires 0 <= i < |lines| => lines[i].value)
  }

  /** A connection that only sends well-formed readings of sensor `k` leaves `k`'s window
      holding the newest ten of everything `k` ever sent, in arrival order. */
  lemma {:induction false} SessionKeepsNewest(st: Store, lines: seq<Option<Reading>>, k: string)
    requires WithinCapacity(st)
    requires forall i :: 0 <= i < |lines| ==> lines[i].Some? && lines[i].value.sensorId == k
    ensures Window(Session(st, lines), k) == Bounded.LastN(Window(st, k) + Readings(lines), RollingSize)
    decreases |lines|
  {
    if lines == [] {
      assert Window(st, k) + Readings(lines) == Window(st, k);
    } else {
      var x := lines[0].value;
      var st1 := Append(st, x);
      var w := Window(st, k);
      ReadingsCons(lines);
      calc {
        Window(Session(st, lines), k);
        Window(Session(st1, lines[1..]), k);
        { SessionKeepsNewest(st1, lines[1..], k); }
        Bounded.LastN(Bounded.LastN(w + [x], RollingSize) + Readings(lines[1..]), RollingSize);
        { Bounded.LastNAbsorbs(w + [x], Readings(lines[1..]), RollingSize); }
        Bounded.LastN(w + [x] + Readings(lines[1..]), RollingSize);
        { assert w + [x] + Readings(lines[1..]) == w + Readings(lines); }
        Bounded.LastN(w + Readings(lines), RollingSize);
      }
    }
  }

  lemma ReadingsCons(lines: seq<Option<Reading>>)
    requires lines != []
    requires forall i :: 0 <= i < |lines| ==> lines[i].Some?
    ensures Readings(lines) == [lines[0].value] + Readings(lines[1..])
  {
  }

  /** Other sensors' windows are untouched by a connection that sends only `k`'s readings. */
  lemma {:induction false} SessionLeavesOthers(st: Store, lines: seq<Option<Reading>>, k: string, j: string)
    requires WithinCapacity(st)
    requires forall i :: 0 <= i < |lines| ==> lines[i].Some? ==> lines[i].value.sensorId == k
    requires j != k
    ensures Window(Session(st, lines), j) == Window(st, j)
    decreases |lines|
  {
    if lines != [] && lines[0].Some? {
      var st1 := Append(st, lines[0].value);
      assert Session(st, lines) == Session(st1, lines[1..]);
      assert Window(st1, j) == Window(st, j);
      SessionLeavesOthers(st1, lines[1..], k, j);
    }
  }
}
