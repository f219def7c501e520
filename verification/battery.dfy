/** The drone's simulated battery: a level that drains with elapsed time, floored at 0,
    and is reset to capacity by a recharge. The monotonic clock becomes an explicit
    number of elapsed seconds. */
module Battery {

  /** `drainRate` is in percent per minute. */
  datatype Battery = Battery(capacity: real, level: real, drainRate: real)

  function Max(a: real, b: real): real {
    if a >= b then a else b
  }

  /** The level stays within [0, capacity] and time can only drain it. */
  ghost predicate Valid(b: Battery) {
    0.0 <= b.level <= b.capacity && 0.0 <= b.drainRate
  }

  /** A new battery is full. */
  function New(capacity: real, drainRate: real): (b: Battery)
    ensures b.level == b.capacity == capacity
    ensures b.drainRate == drainRate
    ensures 0.0 <= capacity && 0.0 <= drainRate ==> Valid(b)
  {
    Battery(capacity, capacity, drainRate)
  }

  /** Advance the battery by `elapsed` seconds of monotonic time. */
  function Tick(b: Battery, elapsed: real): (r: Battery)
    requires 0.0 <= elapsed
    ensures r.capacity == b.capacity && r.drainRate == b.drainRate
    ensures 0.0 <= r.level
    ensures 0.0 <= b.level && 0.0 <= b.drainRate ==> r.level <= b.level
    ensures 0.0 <= b.level - elapsed / 60.0 * b.drainRate ==> r.level == b.level - elapsed / 60.0 * b.drainRate
    ensures b.level - elapsed / 60.0 * b.drainRate < 0.0 ==> r.level == 0.0
    ensures Valid(b) ==> Valid(r)
  {
    b.(level := Max(0.0, b.level - elapsed / 60.0 * b.drainRate))
  }

  /** Reset to full, whatever the level was. */
  function Charge(b: Battery): (r: Battery)
    ensures r.level == b.capacity
    ensures r.capacity == b.capacity && r.drainRate == b.drainRate
    ensures 0.0 <= b.capacity && 0.0 <= b.drainRate ==> Valid(r)
  {
    b.(level := b.capacity)
  }

  /** Subtract `amount`, floored at 0 (the drone's handling of a `drain` command). */
  function Drain(b: Battery, amount: real): (r: Battery)
    ensures r.capacity == b.capacity && r.drainRate == b.drainRate
    ensures 0.0 <= r.level
    ensures 0.0 <= b.level - amount ==> r.level == b.level - amount
    ensures b.level - amount < 0.0 ==> r.level == 0.0
    ensures Valid(b) && 0.0 <= amount ==> Valid(r)
  {
    b.(level := Max(0.0, b.level - amount))
  }

  /** Reading the percentage first ticks the battery, so it is not a pure query:
      the reported value is the level after the tick, and the new battery is returned. */
  datatype Percent = Percent(value: real, battery: Battery)

  function AsPercent(b: Battery, elapsed: real): (r: Percent)
    requires 0.0 <= elapsed
    ensures r.battery == Tick(b, elapsed)
    ensures r.value == r.battery.level
    ensures r.battery.capacity == b.capacity && r.battery.drainRate == b.drainRate
    ensures 0.0 <= r.value
    ensures 0.0 < elapsed && 0.0 < b.drainRate && 0.0 < b.level ==> r.battery.level < b.level
    ensures Valid(b) ==> Valid(r.battery)
  {
    var t := Tick(b, elapsed);
    Percent(t.level, t)
  }

  /** Ticking in two steps drains exactly as much as one tick over the whole interval,
      so the extra ticks hidden in `AsPercent` only split the same drain. */
  lemma TickSplits(b: Battery, e1: real, e2: real)
    requires 0.0 <= e1 && 0.0 <= e2 && 0.0 <= b.drainRate
    ensures Tick(Tick(b, e1), e2) == Tick(b, e1 + e2)
  {
  }
}
