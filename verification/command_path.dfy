/** A battery command from the central server to a drone: routed by the registry,
    written as one `{type, target, action, amount}` object, applied by the drone's
    listener. */
module CommandPath {
  import Central
  import Drone
  import Battery

  /** A command routed to a connection and read by the drone of that id drains by the
      amount (floored at 0) or recharges to capacity; any other action, or any other
      drone, leaves the battery as it was. No command the server writes stops the drone. */
  lemma DispatchedCommandApplies(s: Central.CentralState, target: string, action: string,
                                 amount: int, d: Drone.Drone)
    requires Central.Dispatch(s, target, action, amount).Wrote?
    ensures var cmd := Central.Dispatch(s, target, action, amount).cmd;
      var r := Drone.HandleControl(d.battery, d.id, Drone.Decoded(Central.Encode(cmd)));
      && r.Handled?
      && (d.id != target ==> r.battery == d.battery)
      && (d.id == target && action == "drain" ==>
            r.battery.level == Battery.Max(0.0, d.battery.level - amount as real))
      && (d.id == target && action == "recharge" ==> r.battery.level == d.battery.capacity)
      && (d.id == target && action != "drain" && action != "recharge" ==> r.battery == d.battery)
  {
  }
}
