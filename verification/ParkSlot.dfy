/** One slot of the parking lot as the reservation that holds it sees it.

The models of the scheduler, the process waits and the cleanup task take a whole park or unpark as
one step on such a slot; ParkingLotStages shows that every run of the lot is one on each of them. */
module ParkSlot {

  datatype Slot = Reserved | Occupied(t: nat) | Unparked | Done

  /** A whole `park` of `t`: it waits in the slot, or an early unpark sends it straight back. */
  function AfterPark(x: Slot, t: nat): Slot { if x == Reserved then Occupied(t) else Done }

  /** A whole `unpark`: the parked value comes out, or a later park will bounce. */
  function AfterUnpark(x: Slot): Slot { if x.Occupied? then Done else Unparked }

  /** A park, an unpark or a release of the slot, or nothing. */
  predicate Moves(a: Slot, b: Slot) {
    || a == b
    || ((a == Reserved || a == Unparked) && b == AfterPark(a, if b.Occupied? then b.t else 0))
    || ((a == Reserved || a.Occupied?) && b == AfterUnpark(a))
    || (a == Reserved && b == Done)
  }
}
