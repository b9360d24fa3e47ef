/** The lock-free parking lot of kernel/park/src/lib.rs as an interleaved step machine.

Every atomic operation, cell access and ticket transfer is one step, taken by any
party in any order. The state holds every live Rust value that owns a right to a slot:
reservations, tickets and the calls that consume them, ticket cells, and the pointer
all clones of one waker share.

History that guards no step: the reservation number a slot was last claimed under
(`owner`, copied into tickets as `res`), the value each reservation was given (`given`),
the log of values handed back (`log`) and the reservations whose park or unpark right was
dropped (`lostPark`, `lostUnpark`).
*/
module ParkingLot {
  import opened Basics

  const SEGMENT_SLOTS: nat := 64

  type Value = nat

  datatype SlotState = Empty | Reserved | Occupied | Unparked

  datatype SlotId = SlotId(segment: nat, index: nat)

  datatype Slot = Slot(state: SlotState, cell: Option<Value>, owner: nat)

  datatype Ticket = Ticket(slot: SlotId, res: nat)

  /** A call of `reserve` or `try_reserve` in progress. */
  datatype Scan =
    | Scanner(segment: nat, index: nat, sawEmpty: bool, mayAppend: bool)
    | Appender(segment: nat, newSegment: nat)

  /** A park ticket and the stages of the `park` call that consumes it. */
  datatype ParkPhase =
    | ParkIdle
    | Written(v: Value)    // value in the cell, exchange not yet done
    | Bounced              // exchange failed
    | ParkTook(v: Value)   // value read back, slot not yet freed

  datatype Parker = Parker(t: Ticket, phase: ParkPhase)

  /** An unpark ticket and the stages of the `unpark` call that consumes it. */
  datatype UnparkPhase =
    | UnparkIdle
    | Claiming             // exchange failed
    | UnparkTook(v: Value) // value read, slot not yet freed

  datatype Unparker = Unparker(t: Ticket, phase: UnparkPhase)

  datatype Return = Return(res: nat, value: Value, toParker: bool)

  datatype Lot = Lot(
    slots: map<SlotId, Slot>,
    published: set<nat>,
    next: map<nat, nat>,
    segmentCount: nat,
    scans: map<nat, Scan>,
    reservations: map<nat, Ticket>,
    parkers: map<nat, Parker>,
    parkCells: map<nat, Option<Ticket>>,
    unparkers: map<nat, Unparker>,
    unparkCells: map<nat, Option<Ticket>>,
    wakers: map<nat, Option<Ticket>>,
    nextRes: nat,
    given: map<nat, Value>,
    log: seq<Return>,
    lostPark: set<nat>,
    lostUnpark: set<nat>)

  // ------------------------------------------------------------- starting state

  function FreshSlot(): Slot {
    Slot(Empty, None, 0)
  }

  function SegmentSlots(segment: nat): map<SlotId, Slot> {
    map i | 0 <= i < SEGMENT_SLOTS :: SlotId(segment, i) := FreshSlot()
  }

  function Initial(): Lot {
    Lot(SegmentSlots(0), {0}, map[], 1, map[], map[], map[], map[], map[], map[], map[], 0, map[], [], {}, {})
  }

  // --------------------------------------------------- reserve and try_reserve

  function StartScan(s: Lot, n: nat, mayAppend: bool): Lot {
    s.(scans := s.scans[n := Scanner(0, 0, false, mayAppend)])
  }

  function At(s: Lot, id: SlotId): Slot {
    if id in s.slots then s.slots[id] else FreshSlot()
  }

  /** The relaxed load that skips slots in use. */
  function ScanLoad(s: Lot, h: nat): Lot
    requires h in s.scans && s.scans[h].Scanner?
  {
    var x := s.scans[h];
    var free := At(s, SlotId(x.segment, x.index)).state == Empty;
    s.(scans := s.scans[h := if free then x.(sawEmpty := true) else x.(index := x.index + 1)])
  }

  /** The claiming exchange, which another claimer may have won. */
  function ScanClaim(s: Lot, h: nat, n: nat): Lot
    requires h in s.scans && s.scans[h].Scanner?
  {
    var x := s.scans[h];
    var id := SlotId(x.segment, x.index);
    var won := At(s, id).state == Empty;
    s.(slots := if won then s.slots[id := At(s, id).(state := Reserved, owner := s.nextRes)] else s.slots,
       nextRes := if won then s.nextRes + 1 else s.nextRes,
       scans := if won then s.scans - {h} else s.scans[h := x.(sawEmpty := false, index := x.index + 1)],
       reservations := if won then s.reservations[n := Ticket(id, s.nextRes)] else s.reservations)
  }

  /** The load of `next` at the end of a segment. */
  function ScanAdvance(s: Lot, h: nat): Lot
    requires h in s.scans && s.scans[h].Scanner?
  {
    var x := s.scans[h];
    var append := x.segment !in s.next && x.mayAppend;
    s.(scans :=
         if x.segment in s.next then s.scans[h := Scanner(s.next[x.segment], 0, false, x.mayAppend)]
         else if append then s.scans[h := Appender(x.segment, s.segmentCount)]
         else s.scans - {h},
       segmentCount := if append then s.segmentCount + 1 else s.segmentCount)
  }

  /** The publishing exchange: the loser drops its own segment and follows the winner's. */
  function Append(s: Lot, h: nat): Lot
    requires h in s.scans && s.scans[h].Appender?
  {
    var x := s.scans[h];
    var won := x.segment !in s.next;
    s.(next := if won then s.next[x.segment := x.newSegment] else s.next,
       published := if won then s.published + {x.newSegment} else s.published,
       slots := if won then s.slots + SegmentSlots(x.newSegment) else s.slots,
       scans := s.scans[h := Scanner(if won then x.newSegment else s.next[x.segment], 0, false, true)])
  }

  // -------------------------------------------------------------- reservations

  function Split(s: Lot, h: nat, p: nat, u: nat): Lot
    requires h in s.reservations
  {
    s.(reservations := s.reservations - {h},
       parkers := s.parkers[p := Parker(s.reservations[h], ParkIdle)],
       unparkers := s.unparkers[u := Unparker(s.reservations[h], UnparkIdle)])
  }

  function Release(s: Lot, h: nat): Lot
    requires h in s.reservations
  {
    var id := s.reservations[h].slot;
    s.(slots := s.slots[id := At(s, id).(state := Empty)], reservations := s.reservations - {h})
  }

  // ---------------------------------------------------------------------- park

  function ParkWrite(s: Lot, h: nat, v: Value): Lot
    requires h in s.parkers
  {
    var t := s.parkers[h].t;
    s.(slots := s.slots[t.slot := At(s, t.slot).(cell := Some(v))],
       parkers := s.parkers[h := Parker(t, Written(v))],
       given := s.given[t.res := v])
  }

  function ParkExchange(s: Lot, h: nat): Lot
    requires h in s.parkers
  {
    var t := s.parkers[h].t;
    var first := At(s, t.slot).state == Reserved;
    s.(slots := if first then s.slots[t.slot := At(s, t.slot).(state := Occupied)] else s.slots,
       parkers := if first then s.parkers - {h} else s.parkers[h := Parker(t, Bounced)])
  }

  /** Reading a cell that was never written yields an arbitrary bit pattern. */
  function RawRead(cell: Option<Value>): Value {
    match cell
    case Some(v) => v
    case None => 0
  }

  function ParkReadBack(s: Lot, h: nat): Lot
    requires h in s.parkers
  {
    var t := s.parkers[h].t;
    s.(parkers := s.parkers[h := Parker(t, ParkTook(RawRead(At(s, t.slot).cell)))])
  }

  function ParkFree(s: Lot, h: nat): Lot
    requires h in s.parkers && s.parkers[h].phase.ParkTook?
  {
    var t := s.parkers[h].t;
    s.(slots := s.slots[t.slot := At(s, t.slot).(state := Empty)],
       parkers := s.parkers - {h},
       log := s.log + [Return(t.res, s.parkers[h].phase.v, true)])
  }

  // -------------------------------------------------------------------- unpark

  function UnparkExchange(s: Lot, h: nat): Lot
    requires h in s.unparkers
  {
    var t := s.unparkers[h].t;
    var first := At(s, t.slot).state == Reserved;
    s.(slots := if first then s.slots[t.slot := At(s, t.slot).(state := Unparked)] else s.slots,
       unparkers := if first then s.unparkers - {h} else s.unparkers[h := Unparker(t, Claiming)])
  }

  function UnparkRead(s: Lot, h: nat): Lot
    requires h in s.unparkers
  {
    var t := s.unparkers[h].t;
    s.(unparkers := s.unparkers[h := Unparker(t, UnparkTook(RawRead(At(s, t.slot).cell)))])
  }

  function UnparkFree(s: Lot, h: nat): Lot
    requires h in s.unparkers && s.unparkers[h].phase.UnparkTook?
  {
    var t := s.unparkers[h].t;
    s.(slots := s.slots[t.slot := At(s, t.slot).(state := Empty)],
       unparkers := s.unparkers - {h},
       log := s.log + [Return(t.res, s.unparkers[h].phase.v, false)])
  }

  // ---------------------------------------------------------- wakers and cells

  function IntoWaker(s: Lot, h: nat, n: nat): Lot
    requires h in s.unparkers
  {
    s.(unparkers := s.unparkers - {h}, wakers := s.wakers[n := Some(s.unparkers[h].t)])
  }

  /** Any clone: the swap leaves null, and only a non-null pointer goes on to `unpark`. */
  function Wake(s: Lot, w: nat, n: nat): Lot
    requires w in s.wakers
  {
    s.(wakers := s.wakers[w := None],
       unparkers := if s.wakers[w].Some? then s.unparkers[n := Unparker(s.wakers[w].value, UnparkIdle)] else s.unparkers)
  }

  function NewParkCell(s: Lot, c: nat): Lot {
    s.(parkCells := s.parkCells[c := None])
  }

  function NewUnparkCell(s: Lot, c: nat): Lot {
    s.(unparkCells := s.unparkCells[c := None])
  }

  function PutPark(s: Lot, h: nat, c: nat): Lot
    requires h in s.parkers && c in s.parkCells
  {
    var free := s.parkCells[c].None?;
    s.(parkers := if free then s.parkers - {h} else s.parkers,
       parkCells := if free then s.parkCells[c := Some(s.parkers[h].t)] else s.parkCells)
  }

  function PutParkReservation(s: Lot, h: nat, c: nat, u: nat): Lot
    requires h in s.reservations && c in s.parkCells
  {
    var free := s.parkCells[c].None?;
    s.(reservations := if free then s.reservations - {h} else s.reservations,
       parkCells := if free then s.parkCells[c := Some(s.reservations[h])] else s.parkCells,
       unparkers := if free then s.unparkers[u := Unparker(s.reservations[h], UnparkIdle)] else s.unparkers)
  }

  function TakePark(s: Lot, c: nat, p: nat): Lot
    requires c in s.parkCells
  {
    s.(parkCells := s.parkCells[c := None],
       parkers := if s.parkCells[c].Some? then s.parkers[p := Parker(s.parkCells[c].value, ParkIdle)] else s.parkers)
  }

  function PutUnparkReservation(s: Lot, h: nat, c: nat, p: nat): Lot
    requires h in s.reservations && c in s.unparkCells
  {
    var free := s.unparkCells[c].None?;
    s.(reservations := if free then s.reservations - {h} else s.reservations,
       unparkCells := if free then s.unparkCells[c := Some(s.reservations[h])] else s.unparkCells,
       parkers := if free then s.parkers[p := Parker(s.reservations[h], ParkIdle)] else s.parkers)
  }

  function TakeUnpark(s: Lot, c: nat, u: nat): Lot
    requires c in s.unparkCells
  {
    s.(unparkCells := s.unparkCells[c := None],
       unparkers := if s.unparkCells[c].Some? then s.unparkers[u := Unparker(s.unparkCells[c].value, UnparkIdle)] else s.unparkers)
  }

  // ------------------------------------------------------------ dropped values

  function LeakReservation(s: Lot, h: nat): Lot
    requires h in s.reservations
  {
    s.(reservations := s.reservations - {h},
       lostPark := s.lostPark + {s.reservations[h].res},
       lostUnpark := s.lostUnpark + {s.reservations[h].res})
  }

  function LeakPark(s: Lot, h: nat): Lot
    requires h in s.parkers
  {
    s.(parkers := s.parkers - {h}, lostPark := s.lostPark + {s.parkers[h].t.res})
  }

  function LeakUnpark(s: Lot, h: nat): Lot
    requires h in s.unparkers
  {
    s.(unparkers := s.unparkers - {h}, lostUnpark := s.lostUnpark + {s.unparkers[h].t.res})
  }

  /** The last clone of a waker is dropped. */
  function LeakWaker(s: Lot, w: nat): Lot
    requires w in s.wakers
  {
    s.(wakers := s.wakers - {w},
       lostUnpark := if s.wakers[w].Some? then s.lostUnpark + {s.wakers[w].value.res} else s.lostUnpark)
  }

  // ---------------------------------------------------------------------- runs

  datatype Step =
    | DoStartScan(n: nat, mayAppend: bool)
    | DoScanLoad(h: nat)
    | DoScanClaim(h: nat, n: nat)
    | DoScanAdvance(h: nat)
    | DoAppend(h: nat)
    | DoSplit(h: nat, p: nat, u: nat)
    | DoRelease(h: nat)
    | DoParkWrite(h: nat, v: Value)
    | DoParkExchange(h: nat)
    | DoParkReadBack(h: nat)
    | DoParkFree(h: nat)
    | DoUnparkExchange(h: nat)
    | DoUnparkRead(h: nat)
    | DoUnparkFree(h: nat)
    | DoIntoWaker(h: nat, n: nat)
    | DoWake(h: nat, n: nat)
    | DoNewParkCell(n: nat)
    | DoNewUnparkCell(n: nat)
    | DoPutPark(h: nat, c: nat)
    | DoPutParkReservation(h: nat, c: nat, n: nat)
    | DoTakePark(c: nat, n: nat)
    | DoPutUnparkReservation(h: nat, c: nat, n: nat)
    | DoTakeUnpark(c: nat, n: nat)
    | DoLeakReservation(h: nat)
    | DoLeakPark(h: nat)
    | DoLeakUnpark(h: nat)
    | DoLeakWaker(h: nat)

  predicate ScannerAt(s: Lot, h: nat) {
    h in s.scans && s.scans[h].Scanner?
  }

  predicate ParkerAt(s: Lot, h: nat, phase: ParkPhase) {
    h in s.parkers && s.parkers[h].phase == phase
  }

  predicate UnparkerAt(s: Lot, h: nat, phase: UnparkPhase) {
    h in s.unparkers && s.unparkers[h].phase == phase
  }

  predicate Enabled(s: Lot, step: Step) {
    match step
    case DoStartScan(n, _) => n !in s.scans
    case DoScanLoad(h) => ScannerAt(s, h) && !s.scans[h].sawEmpty && s.scans[h].index < SEGMENT_SLOTS
    case DoScanClaim(h, n) => ScannerAt(s, h) && s.scans[h].sawEmpty && n !in s.reservations
    case DoScanAdvance(h) => ScannerAt(s, h) && s.scans[h].index == SEGMENT_SLOTS
    case DoAppend(h) => h in s.scans && s.scans[h].Appender?
    case DoSplit(h, p, u) => h in s.reservations && p !in s.parkers && u !in s.unparkers
    case DoRelease(h) => h in s.reservations
    case DoParkWrite(h, _) => ParkerAt(s, h, ParkIdle)
    case DoParkExchange(h) => h in s.parkers && s.parkers[h].phase.Written?
    case DoParkReadBack(h) => ParkerAt(s, h, Bounced)
    case DoParkFree(h) => h in s.parkers && s.parkers[h].phase.ParkTook?
    case DoUnparkExchange(h) => UnparkerAt(s, h, UnparkIdle)
    case DoUnparkRead(h) => UnparkerAt(s, h, Claiming)
    case DoUnparkFree(h) => h in s.unparkers && s.unparkers[h].phase.UnparkTook?
    case DoIntoWaker(h, n) => UnparkerAt(s, h, UnparkIdle) && n !in s.wakers
    case DoWake(h, n) => h in s.wakers && n !in s.unparkers
    case DoNewParkCell(n) => n !in s.parkCells
    case DoNewUnparkCell(n) => n !in s.unparkCells
    case DoPutPark(h, c) => ParkerAt(s, h, ParkIdle) && c in s.parkCells
    case DoPutParkReservation(h, c, n) => h in s.reservations && c in s.parkCells && n !in s.unparkers
    case DoTakePark(c, n) => c in s.parkCells && n !in s.parkers
    case DoPutUnparkReservation(h, c, n) => h in s.reservations && c in s.unparkCells && n !in s.parkers
    case DoTakeUnpark(c, n) => c in s.unparkCells && n !in s.unparkers
    case DoLeakReservation(h) => h in s.reservations
    case DoLeakPark(h) => ParkerAt(s, h, ParkIdle)
    case DoLeakUnpark(h) => UnparkerAt(s, h, UnparkIdle)
    case DoLeakWaker(h) => h in s.wakers
  }

  function Apply(s: Lot, step: Step): Lot
    requires Enabled(s, step)
  {
    match step
    case DoStartScan(n, mayAppend) => StartScan(s, n, mayAppend)
    case DoScanLoad(h) => ScanLoad(s, h)
    case DoScanClaim(h, n) => ScanClaim(s, h, n)
    case DoScanAdvance(h) => ScanAdvance(s, h)
    case DoAppend(h) => Append(s, h)
    case DoSplit(h, p, u) => Split(s, h, p, u)
    case DoRelease(h) => Release(s, h)
    case DoParkWrite(h, v) => ParkWrite(s, h, v)
    case DoParkExchange(h) => ParkExchange(s, h)
    case DoParkReadBack(h) => ParkReadBack(s, h)
    case DoParkFree(h) => ParkFree(s, h)
    case DoUnparkExchange(h) => UnparkExchange(s, h)
    case DoUnparkRead(h) => UnparkRead(s, h)
    case DoUnparkFree(h) => UnparkFree(s, h)
    case DoIntoWaker(h, n) => IntoWaker(s, h, n)
    case DoWake(h, n) => Wake(s, h, n)
    case DoNewParkCell(n) => NewParkCell(s, n)
    case DoNewUnparkCell(n) => NewUnparkCell(s, n)
    case DoPutPark(h, c) => PutPark(s, h, c)
    case DoPutParkReservation(h, c, n) => PutParkReservation(s, h, c, n)
    case DoTakePark(c, n) => TakePark(s, c, n)
    case DoPutUnparkReservation(h, c, n) => PutUnparkReservation(s, h, c, n)
    case DoTakeUnpark(c, n) => TakeUnpark(s, c, n)
    case DoLeakReservation(h) => LeakReservation(s, h)
    case DoLeakPark(h) => LeakPark(s, h)
    case DoLeakUnpark(h) => LeakUnpark(s, h)
    case DoLeakWaker(h) => LeakWaker(s, h)
  }

  /** A run: every interleaving of any number of parties, from a fresh lot. */
  ghost predicate IsRun(run: seq<Lot>) {
    && |run| > 0
    && run[0] == Initial()
    && forall i :: 0 <= i < |run| - 1 ==> Next(run[i], run[i + 1])
  }

  ghost predicate Next(s: Lot, s': Lot) {
    exists step :: Enabled(s, step) && s' == Apply(s, step)
  }
}
