/** Safety of the parking lot over every run.

The invariant is kept in four parts, each over the few components it talks about, and
each step is shown to keep every part it touches.
*/
module ParkingLotProof {
  import opened Basics
  import opened ParkingLot

  // ------------------------------------------------------------- the invariant

  type Slots = map<SlotId, Slot>
  type Given = map<nat, Value>
  type Tickets = map<nat, Ticket>
  type Cells = map<nat, Option<Ticket>>

  /** Where the park right of a slot is. */
  datatype ParkPlace = InReservation(h: nat) | InParker(h: nat) | InParkCell(c: nat)

  /** Where the unpark right of a slot is. */
  datatype UnparkPlace = OfReservation(h: nat) | InUnparker(h: nat) | InUnparkCell(c: nat) | InWaker(w: nat)

  type Parks = map<SlotId, ParkPlace>
  type Unparks = map<SlotId, UnparkPlace>

  /** Bookkeeping of the proof: where each right is, which slot a reservation claimed,
  where in the log its value went, and each segment's predecessor. */
  datatype Track = Track(park: Parks, unpark: Unparks, home: map<nat, SlotId>, logged: map<nat, nat>, before: map<nat, nat>)

  datatype ParkView = ParkView(slots: Slots, given: Given, lost: set<nat>, rs: Tickets, ps: map<nat, Parker>, cs: Cells)

  datatype UnparkView = UnparkView(
    slots: Slots, given: Given, lost: set<nat>, rs: Tickets, us: map<nat, Unparker>, cs: Cells, ws: Cells)

  datatype ValueView = ValueView(
    slots: Slots, nextRes: nat, given: Given, log: seq<Return>, home: map<nat, SlotId>, logged: map<nat, nat>)

  datatype SegmentView = SegmentView(
    ids: set<SlotId>, published: set<nat>, next: map<nat, nat>, count: nat, scans: map<nat, Scan>, before: map<nat, nat>)

  function ParksOf(s: Lot): ParkView {
    ParkView(s.slots, s.given, s.lostPark, s.reservations, s.parkers, s.parkCells)
  }

  function UnparksOf(s: Lot): UnparkView {
    UnparkView(s.slots, s.given, s.lostUnpark, s.reservations, s.unparkers, s.unparkCells, s.wakers)
  }

  function ValuesOf(s: Lot, w: Track): ValueView {
    ValueView(s.slots, s.nextRes, s.given, s.log, w.home, w.logged)
  }

  function SegmentsOf(s: Lot, w: Track): SegmentView {
    SegmentView(s.slots.Keys, s.published, s.next, s.segmentCount, s.scans, w.before)
  }

  /** The ticket's slot is still held by the ticket's own reservation. */
  ghost predicate Owns(slots: Slots, t: Ticket) {
    t.slot in slots && slots[t.slot].owner == t.res && slots[t.slot].state != Empty
  }

  ghost predicate ParkPhaseOk(sl: Slot, res: nat, phase: ParkPhase, given: Given) {
    match phase
    case ParkIdle => sl.state != Occupied && res !in given
    case Written(v) => sl.state != Occupied && res in given && given[res] == v && sl.cell == Some(v)
    case Bounced => sl.state == Unparked && res in given && sl.cell == Some(given[res])
    case ParkTook(v) => sl.state == Unparked && res in given && given[res] == v
  }

  ghost predicate UnparkPhaseOk(sl: Slot, res: nat, phase: UnparkPhase, given: Given) {
    match phase
    case UnparkIdle => sl.state != Unparked
    case Claiming => sl.state == Occupied
    case UnparkTook(v) => sl.state == Occupied && res in given && given[res] == v
  }

  ghost predicate ParkHeld(v: ParkView, place: ParkPlace, id: SlotId) {
    match place
    case InReservation(h) => h in v.rs && v.rs[h].slot == id
    case InParker(h) => h in v.ps && v.ps[h].t.slot == id
    case InParkCell(c) => c in v.cs && v.cs[c].Some? && v.cs[c].value.slot == id
  }

  ghost predicate ParkRecorded(v: ParkView, park: Parks) {
    && (forall h :: h in v.rs ==>
          && Owns(v.slots, v.rs[h]) && v.slots[v.rs[h].slot].state == Reserved
          && v.rs[h].res !in v.given && v.rs[h].res !in v.lost
          && v.rs[h].slot in park && park[v.rs[h].slot] == InReservation(h))
    && (forall h :: h in v.ps ==>
          && Owns(v.slots, v.ps[h].t) && ParkPhaseOk(v.slots[v.ps[h].t.slot], v.ps[h].t.res, v.ps[h].phase, v.given)
          && v.ps[h].t.res !in v.lost
          && v.ps[h].t.slot in park && park[v.ps[h].t.slot] == InParker(h))
    && (forall c :: c in v.cs && v.cs[c].Some? ==>
          && Owns(v.slots, v.cs[c].value) && v.slots[v.cs[c].value.slot].state != Occupied
          && v.cs[c].value.res !in v.given && v.cs[c].value.res !in v.lost
          && v.cs[c].value.slot in park && park[v.cs[c].value.slot] == InParkCell(c))
  }

  /** Every park right is with the one party on record, in a state that right allows, and a
  claim that still waits for its park has the right somewhere unless it was dropped. */
  ghost predicate ParkSideOk(v: ParkView, park: Parks) {
    && ParkRecorded(v, park)
    && (forall id :: id in v.slots && v.slots[id].state != Empty && v.slots[id].state != Occupied && v.slots[id].owner !in v.lost ==>
          id in park && ParkHeld(v, park[id], id))
    && (forall r :: r in v.lost ==> r !in v.given)
  }

  ghost predicate UnparkHeld(v: UnparkView, place: UnparkPlace, id: SlotId) {
    match place
    case OfReservation(h) => h in v.rs && v.rs[h].slot == id
    case InUnparker(h) => h in v.us && v.us[h].t.slot == id
    case InUnparkCell(c) => c in v.cs && v.cs[c].Some? && v.cs[c].value.slot == id
    case InWaker(w) => w in v.ws && v.ws[w].Some? && v.ws[w].value.slot == id
  }

  ghost predicate UnparkRecorded(v: UnparkView, unpark: Unparks) {
    && (forall h :: h in v.rs ==>
          && Owns(v.slots, v.rs[h]) && v.slots[v.rs[h].slot].state == Reserved
          && v.rs[h].slot in unpark && unpark[v.rs[h].slot] == OfReservation(h))
    && (forall h :: h in v.us ==>
          && Owns(v.slots, v.us[h].t) && UnparkPhaseOk(v.slots[v.us[h].t.slot], v.us[h].t.res, v.us[h].phase, v.given)
          && v.us[h].t.slot in unpark && unpark[v.us[h].t.slot] == InUnparker(h))
    && (forall c :: c in v.cs && v.cs[c].Some? ==>
          && Owns(v.slots, v.cs[c].value) && v.slots[v.cs[c].value.slot].state != Unparked
          && v.cs[c].value.slot in unpark && unpark[v.cs[c].value.slot] == InUnparkCell(c))
    && (forall w :: w in v.ws && v.ws[w].Some? ==>
          && Owns(v.slots, v.ws[w].value) && v.slots[v.ws[w].value.slot].state != Unparked
          && v.ws[w].value.slot in unpark && unpark[v.ws[w].value.slot] == InWaker(w))
  }

  /** The same for unpark rights. */
  ghost predicate UnparkSideOk(v: UnparkView, unpark: Unparks) {
    && UnparkRecorded(v, unpark)
    && (forall id :: id in v.slots && v.slots[id].state != Empty && v.slots[id].state != Unparked && v.slots[id].owner !in v.lost ==>
          id in unpark && UnparkHeld(v, unpark[id], id))
  }

  /** The reservation still keeps its claim on the slot it was given. */
  ghost predicate Open(slots: Slots, home: map<nat, SlotId>, res: nat) {
    res in home && Owns(slots, Ticket(home[res], res))
  }

  /** Every value given is in the log once, or its reservation still holds a slot. */
  ghost predicate ValuesOk(v: ValueView) {
    && (forall id :: id in v.slots && v.slots[id].state != Empty ==>
          && v.slots[id].owner in v.home && v.home[v.slots[id].owner] == id
          && (v.slots[id].state == Occupied ==>
                v.slots[id].owner in v.given && v.slots[id].cell == Some(v.given[v.slots[id].owner])))
    && (forall i :: 0 <= i < |v.log| ==>
          && v.log[i].res in v.given && v.given[v.log[i].res] == v.log[i].value
          && v.log[i].res in v.logged && v.logged[v.log[i].res] == i)
    && (forall r :: r in v.logged ==>
          v.logged[r] < |v.log| && v.log[v.logged[r]].res == r && r in v.given && !Open(v.slots, v.home, r))
    && (forall r :: r in v.home ==> r < v.nextRes)
    && (forall r :: r in v.given ==> r in v.home && (r in v.logged || Open(v.slots, v.home, r)))
  }

  /** Segments form one chain that only grows at its end. */
  ghost predicate SegmentsOk(v: SegmentView) {
    && 0 in v.published
    && (forall id :: id in v.ids <==> id.segment in v.published && id.index < SEGMENT_SLOTS)
    && (forall g :: g in v.published ==> g < v.count)
    && (forall g :: g in v.next ==>
          && g in v.published && v.next[g] in v.published && g < v.next[g]
          && v.next[g] in v.before && v.before[v.next[g]] == g)
    && (forall g :: g in v.published && g != 0 ==>
          g in v.before && v.before[g] in v.next && v.next[v.before[g]] == g)
    && (forall h :: h in v.scans && v.scans[h].Scanner? ==>
          && v.scans[h].segment in v.published && v.scans[h].index <= SEGMENT_SLOTS
          && (v.scans[h].sawEmpty ==> v.scans[h].index < SEGMENT_SLOTS))
    && (forall h :: h in v.scans && v.scans[h].Appender? ==>
          && v.scans[h].segment in v.published && v.scans[h].newSegment !in v.published
          && v.scans[h].segment < v.scans[h].newSegment < v.count)
    && (forall h, k :: h in v.scans && k in v.scans && v.scans[h].Appender? && v.scans[k].Appender? ==>
          v.scans[h].newSegment == v.scans[k].newSegment ==> h == k)
  }

  /** Only reservations that were handed out can have lost a right. */
  ghost predicate LostOk(s: Lot) {
    (forall r :: r in s.lostPark ==> r < s.nextRes) && (forall r :: r in s.lostUnpark ==> r < s.nextRes)
  }

  ghost predicate InvAt(s: Lot, w: Track) {
    && ParkSideOk(ParksOf(s), w.park)
    && UnparkSideOk(UnparksOf(s), w.unpark)
    && ValuesOk(ValuesOf(s, w))
    && SegmentsOk(SegmentsOf(s, w))
    && LostOk(s)
  }

  ghost predicate Inv(s: Lot) {
    exists w :: InvAt(s, w)
  }

  // ------------------------------------------------- steps against the park side

  lemma ParkSideClaim(v: ParkView, park: Parks, id: SlotId, n: nat, r: nat)
    requires ParkSideOk(v, park) && id in v.slots && v.slots[id].state == Empty
    requires n !in v.rs && r !in v.given && r !in v.lost
    ensures ParkSideOk(v.(slots := v.slots[id := v.slots[id].(state := Reserved, owner := r)], rs := v.rs[n := Ticket(id, r)]),
                       park[id := InReservation(n)])
  {
  }

  lemma ParkSideGrow(v: ParkView, park: Parks, g: nat)
    requires ParkSideOk(v, park) && v.slots.Keys !! SegmentSlots(g).Keys
    ensures ParkSideOk(v.(slots := v.slots + SegmentSlots(g)), park)
  {
  }

  /** Also `put_reservation` of an unpark cell: the park right leaves the reservation as a ticket. */
  lemma ParkSideSplit(v: ParkView, park: Parks, h: nat, p: nat)
    requires ParkSideOk(v, park) && h in v.rs && p !in v.ps
    ensures ParkSideOk(v.(rs := v.rs - {h}, ps := v.ps[p := Parker(v.rs[h], ParkIdle)]), park[v.rs[h].slot := InParker(p)])
  {
  }

  lemma ParkSideRelease(v: ParkView, park: Parks, h: nat)
    requires ParkSideOk(v, park) && h in v.rs
    ensures ParkSideOk(v.(slots := v.slots[v.rs[h].slot := v.slots[v.rs[h].slot].(state := Empty)], rs := v.rs - {h}), park)
  {
  }

  lemma ParkRecordedWrite(v: ParkView, park: Parks, h: nat, x: Value)
    requires ParkRecorded(v, park) && h in v.ps && v.ps[h].phase == ParkIdle
    requires forall id :: id in v.slots && v.slots[id].state != Empty && v.slots[id].owner == v.ps[h].t.res ==> id == v.ps[h].t.slot
    ensures ParkRecorded(v.(slots := v.slots[v.ps[h].t.slot := v.slots[v.ps[h].t.slot].(cell := Some(x))],
                            ps := v.ps[h := Parker(v.ps[h].t, Written(x))],
                            given := v.given[v.ps[h].t.res := x]), park)
  {
  }

  lemma ParkSideWrite(v: ParkView, park: Parks, h: nat, x: Value)
    requires ParkSideOk(v, park) && h in v.ps && v.ps[h].phase == ParkIdle
    requires forall id :: id in v.slots && v.slots[id].state != Empty && v.slots[id].owner == v.ps[h].t.res ==> id == v.ps[h].t.slot
    ensures ParkSideOk(v.(slots := v.slots[v.ps[h].t.slot := v.slots[v.ps[h].t.slot].(cell := Some(x))],
                          ps := v.ps[h := Parker(v.ps[h].t, Written(x))],
                          given := v.given[v.ps[h].t.res := x]), park)
  {
    ParkRecordedWrite(v, park, h, x);
    ParkerFacts(v, park, h);
    hide ParkRecorded;
  }

  lemma ParkSideExchange(v: ParkView, park: Parks, h: nat)
    requires ParkSideOk(v, park) && h in v.ps && v.slots[v.ps[h].t.slot].state == Reserved
    ensures ParkSideOk(v.(slots := v.slots[v.ps[h].t.slot := v.slots[v.ps[h].t.slot].(state := Occupied)], ps := v.ps - {h}), park)
  {
  }

  lemma ParkSidePhase(v: ParkView, park: Parks, h: nat, phase: ParkPhase)
    requires ParkSideOk(v, park) && h in v.ps
    requires ParkPhaseOk(v.slots[v.ps[h].t.slot], v.ps[h].t.res, phase, v.given)
    ensures ParkSideOk(v.(ps := v.ps[h := Parker(v.ps[h].t, phase)]), park)
  {
  }

  lemma ParkSideFree(v: ParkView, park: Parks, h: nat)
    requires ParkSideOk(v, park) && h in v.ps
    ensures ParkSideOk(v.(slots := v.slots[v.ps[h].t.slot := v.slots[v.ps[h].t.slot].(state := Empty)], ps := v.ps - {h}), park)
  {
  }

  lemma ParkSideUnparked(v: ParkView, park: Parks, id: SlotId)
    requires ParkSideOk(v, park) && id in v.slots && v.slots[id].state == Reserved
    requires forall h :: h in v.rs ==> v.rs[h].slot != id
    ensures ParkSideOk(v.(slots := v.slots[id := v.slots[id].(state := Unparked)]), park)
  {
  }

  lemma ParkSideUnparkFree(v: ParkView, park: Parks, id: SlotId)
    requires ParkSideOk(v, park) && id in v.slots && v.slots[id].state == Occupied
    ensures ParkSideOk(v.(slots := v.slots[id := v.slots[id].(state := Empty)]), park)
  {
  }

  lemma ParkSidePut(v: ParkView, park: Parks, h: nat, c: nat)
    requires ParkSideOk(v, park) && h in v.ps && v.ps[h].phase == ParkIdle && c in v.cs && v.cs[c].None?
    ensures ParkSideOk(v.(ps := v.ps - {h}, cs := v.cs[c := Some(v.ps[h].t)]), park[v.ps[h].t.slot := InParkCell(c)])
  {
  }

  lemma ParkSidePutReservation(v: ParkView, park: Parks, h: nat, c: nat)
    requires ParkSideOk(v, park) && h in v.rs && c in v.cs && v.cs[c].None?
    ensures ParkSideOk(v.(rs := v.rs - {h}, cs := v.cs[c := Some(v.rs[h])]), park[v.rs[h].slot := InParkCell(c)])
  {
  }

  lemma ParkSideTake(v: ParkView, park: Parks, c: nat, p: nat)
    requires ParkSideOk(v, park) && c in v.cs && v.cs[c].Some? && p !in v.ps
    ensures ParkSideOk(v.(cs := v.cs[c := None], ps := v.ps[p := Parker(v.cs[c].value, ParkIdle)]),
                       park[v.cs[c].value.slot := InParker(p)])
  {
  }

  lemma ParkSideNewCell(v: ParkView, park: Parks, c: nat)
    requires ParkSideOk(v, park) && c !in v.cs
    ensures ParkSideOk(v.(cs := v.cs[c := None]), park)
  {
  }

  lemma ParkSideLose(v: ParkView, park: Parks, h: nat)
    requires ParkSideOk(v, park) && h in v.ps && v.ps[h].phase == ParkIdle
    requires forall id :: id in v.slots && v.slots[id].state != Empty && v.slots[id].owner == v.ps[h].t.res ==> id == v.ps[h].t.slot
    ensures ParkSideOk(v.(ps := v.ps - {h}, lost := v.lost + {v.ps[h].t.res}), park)
  {
  }

  lemma ParkSideLoseReservation(v: ParkView, park: Parks, h: nat)
    requires ParkSideOk(v, park) && h in v.rs
    requires forall id :: id in v.slots && v.slots[id].state != Empty && v.slots[id].owner == v.rs[h].res ==> id == v.rs[h].slot
    ensures ParkSideOk(v.(rs := v.rs - {h}, lost := v.lost + {v.rs[h].res}), park)
  {
  }

  // ----------------------------------------------- steps against the unpark side

  lemma UnparkSideClaim(v: UnparkView, unpark: Unparks, id: SlotId, n: nat, r: nat)
    requires UnparkSideOk(v, unpark) && id in v.slots && v.slots[id].state == Empty && n !in v.rs
    ensures UnparkSideOk(v.(slots := v.slots[id := v.slots[id].(state := Reserved, owner := r)], rs := v.rs[n := Ticket(id, r)]),
                         unpark[id := OfReservation(n)])
  {
  }

  lemma UnparkSideGrow(v: UnparkView, unpark: Unparks, g: nat)
    requires UnparkSideOk(v, unpark) && v.slots.Keys !! SegmentSlots(g).Keys
    ensures UnparkSideOk(v.(slots := v.slots + SegmentSlots(g)), unpark)
  {
  }

  /** Also `put_reservation` of a park cell: the unpark right leaves the reservation as a ticket. */
  lemma UnparkSideSplit(v: UnparkView, unpark: Unparks, h: nat, u: nat)
    requires UnparkSideOk(v, unpark) && h in v.rs && u !in v.us
    ensures UnparkSideOk(v.(rs := v.rs - {h}, us := v.us[u := Unparker(v.rs[h], UnparkIdle)]),
                         unpark[v.rs[h].slot := InUnparker(u)])
  {
  }

  lemma UnparkSideRelease(v: UnparkView, unpark: Unparks, h: nat)
    requires UnparkSideOk(v, unpark) && h in v.rs
    ensures UnparkSideOk(v.(slots := v.slots[v.rs[h].slot := v.slots[v.rs[h].slot].(state := Empty)], rs := v.rs - {h}), unpark)
  {
  }

  lemma UnparkRecordedCell(v: UnparkView, unpark: Unparks, id: SlotId, x: Value)
    requires UnparkRecorded(v, unpark) && id in v.slots
    ensures UnparkRecorded(v.(slots := v.slots[id := v.slots[id].(cell := Some(x))]), unpark)
  {
  }

  lemma UnparkSideCell(v: UnparkView, unpark: Unparks, id: SlotId, x: Value)
    requires UnparkSideOk(v, unpark) && id in v.slots
    ensures UnparkSideOk(v.(slots := v.slots[id := v.slots[id].(cell := Some(x))]), unpark)
  {
    hide UnparkRecorded;
    UnparkRecordedCell(v, unpark, id, x);
  }

  lemma UnparkSideGiven(v: UnparkView, unpark: Unparks, r: nat, x: Value)
    requires UnparkSideOk(v, unpark) && r !in v.given
    ensures UnparkSideOk(v.(given := v.given[r := x]), unpark)
  {
  }

  lemma UnparkSideWrite(v: UnparkView, unpark: Unparks, id: SlotId, r: nat, x: Value)
    requires UnparkSideOk(v, unpark) && id in v.slots && r !in v.given
    ensures UnparkSideOk(v.(slots := v.slots[id := v.slots[id].(cell := Some(x))], given := v.given[r := x]), unpark)
  {
    hide UnparkSideOk;
    UnparkSideGiven(v, unpark, r, x);
    UnparkSideCell(v.(given := v.given[r := x]), unpark, id, x);
  }

  lemma UnparkSideParked(v: UnparkView, unpark: Unparks, id: SlotId)
    requires UnparkSideOk(v, unpark) && id in v.slots && v.slots[id].state == Reserved
    requires forall h :: h in v.rs ==> v.rs[h].slot != id
    ensures UnparkSideOk(v.(slots := v.slots[id := v.slots[id].(state := Occupied)]), unpark)
  {
  }

  lemma UnparkSideParkFree(v: UnparkView, unpark: Unparks, id: SlotId)
    requires UnparkSideOk(v, unpark) && id in v.slots && v.slots[id].state == Unparked
    ensures UnparkSideOk(v.(slots := v.slots[id := v.slots[id].(state := Empty)]), unpark)
  {
  }

  /** The exchange or the freeing store that ends an `unpark` call. */
  lemma UnparkRecordedEnd(v: UnparkView, unpark: Unparks, h: nat, state: SlotState)
    requires UnparkRecorded(v, unpark) && h in v.us && (state == Unparked || state == Empty)
    ensures UnparkRecorded(v.(slots := v.slots[v.us[h].t.slot := v.slots[v.us[h].t.slot].(state := state)], us := v.us - {h}), unpark)
  {
  }

  lemma UnparkSideEnd(v: UnparkView, unpark: Unparks, h: nat, state: SlotState)
    requires UnparkSideOk(v, unpark) && h in v.us && (state == Unparked || state == Empty)
    ensures UnparkSideOk(v.(slots := v.slots[v.us[h].t.slot := v.slots[v.us[h].t.slot].(state := state)], us := v.us - {h}), unpark)
  {
    UnparkRecordedEnd(v, unpark, h, state);
    UnparkerFacts(v, unpark, h);
    hide UnparkRecorded;
  }

  lemma UnparkSidePhase(v: UnparkView, unpark: Unparks, h: nat, phase: UnparkPhase)
    requires UnparkSideOk(v, unpark) && h in v.us
    requires UnparkPhaseOk(v.slots[v.us[h].t.slot], v.us[h].t.res, phase, v.given)
    ensures UnparkSideOk(v.(us := v.us[h := Unparker(v.us[h].t, phase)]), unpark)
  {
  }

  lemma UnparkSideIntoWaker(v: UnparkView, unpark: Unparks, h: nat, n: nat)
    requires UnparkSideOk(v, unpark) && h in v.us && v.us[h].phase == UnparkIdle && n !in v.ws
    ensures UnparkSideOk(v.(us := v.us - {h}, ws := v.ws[n := Some(v.us[h].t)]), unpark[v.us[h].t.slot := InWaker(n)])
  {
  }

  lemma UnparkSideWake(v: UnparkView, unpark: Unparks, w: nat, n: nat)
    requires UnparkSideOk(v, unpark) && w in v.ws && v.ws[w].Some? && n !in v.us
    ensures UnparkSideOk(v.(ws := v.ws[w := None], us := v.us[n := Unparker(v.ws[w].value, UnparkIdle)]),
                         unpark[v.ws[w].value.slot := InUnparker(n)])
  {
  }

  lemma UnparkSidePutReservation(v: UnparkView, unpark: Unparks, h: nat, c: nat)
    requires UnparkSideOk(v, unpark) && h in v.rs && c in v.cs && v.cs[c].None?
    ensures UnparkSideOk(v.(rs := v.rs - {h}, cs := v.cs[c := Some(v.rs[h])]), unpark[v.rs[h].slot := InUnparkCell(c)])
  {
  }

  lemma UnparkSideTake(v: UnparkView, unpark: Unparks, c: nat, u: nat)
    requires UnparkSideOk(v, unpark) && c in v.cs && v.cs[c].Some? && u !in v.us
    ensures UnparkSideOk(v.(cs := v.cs[c := None], us := v.us[u := Unparker(v.cs[c].value, UnparkIdle)]),
                         unpark[v.cs[c].value.slot := InUnparker(u)])
  {
  }

  lemma UnparkSideNewCell(v: UnparkView, unpark: Unparks, c: nat)
    requires UnparkSideOk(v, unpark) && c !in v.cs
    ensures UnparkSideOk(v.(cs := v.cs[c := None]), unpark)
  {
  }

  lemma UnparkSideLose(v: UnparkView, unpark: Unparks, h: nat)
    requires UnparkSideOk(v, unpark) && h in v.us
    ensures UnparkSideOk(v.(us := v.us - {h}, lost := v.lost + {v.us[h].t.res}), unpark)
  {
  }

  lemma UnparkSideLoseReservation(v: UnparkView, unpark: Unparks, h: nat)
    requires UnparkSideOk(v, unpark) && h in v.rs
    ensures UnparkSideOk(v.(rs := v.rs - {h}, lost := v.lost + {v.rs[h].res}), unpark)
  {
  }

  lemma UnparkSideLoseWaker(v: UnparkView, unpark: Unparks, w: nat)
    requires UnparkSideOk(v, unpark) && w in v.ws
    ensures UnparkSideOk(v.(ws := v.ws - {w}, lost := if v.ws[w].Some? then v.lost + {v.ws[w].value.res} else v.lost), unpark)
  {
  }

  // ------------------------------------------------------ steps against the values

  lemma ValuesClaim(v: ValueView, id: SlotId)
    requires ValuesOk(v) && id in v.slots && v.slots[id].state == Empty
    ensures ValuesOk(v.(slots := v.slots[id := v.slots[id].(state := Reserved, owner := v.nextRes)],
                        nextRes := v.nextRes + 1,
                        home := v.home[v.nextRes := id]))
  {
  }

  lemma ValuesGrow(v: ValueView, g: nat)
    requires ValuesOk(v) && v.slots.Keys !! SegmentSlots(g).Keys
    ensures ValuesOk(v.(slots := v.slots + SegmentSlots(g)))
  {
  }

  lemma ValuesRelease(v: ValueView, id: SlotId)
    requires ValuesOk(v) && id in v.slots && v.slots[id].state != Empty && v.slots[id].owner !in v.given
    ensures ValuesOk(v.(slots := v.slots[id := v.slots[id].(state := Empty)]))
  {
  }

  lemma ValuesWrite(v: ValueView, id: SlotId, x: Value)
    requires ValuesOk(v) && id in v.slots && v.slots[id].state != Empty && v.slots[id].owner !in v.given
    ensures ValuesOk(v.(slots := v.slots[id := v.slots[id].(cell := Some(x))], given := v.given[v.slots[id].owner := x]))
  {
  }

  lemma ValuesExchange(v: ValueView, id: SlotId, state: SlotState)
    requires ValuesOk(v) && id in v.slots && v.slots[id].state != Empty && state != Empty
    requires state == Occupied ==> v.slots[id].owner in v.given && v.slots[id].cell == Some(v.given[v.slots[id].owner])
    ensures ValuesOk(v.(slots := v.slots[id := v.slots[id].(state := state)]))
  {
  }

  lemma ValuesReturn(v: ValueView, id: SlotId, toParker: bool)
    requires ValuesOk(v) && id in v.slots && v.slots[id].state != Empty && v.slots[id].owner in v.given
    ensures ValuesOk(v.(slots := v.slots[id := v.slots[id].(state := Empty)],
                        log := v.log + [Return(v.slots[id].owner, v.given[v.slots[id].owner], toParker)],
                        logged := v.logged[v.slots[id].owner := |v.log|]))
  {
  }

  // --------------------------------------------------- steps against the segments

  lemma SegmentsScan(v: SegmentView, h: nat, segment: nat, index: nat, sawEmpty: bool, mayAppend: bool)
    requires SegmentsOk(v) && segment in v.published
    requires index <= SEGMENT_SLOTS && (sawEmpty ==> index < SEGMENT_SLOTS)
    ensures SegmentsOk(v.(scans := v.scans[h := Scanner(segment, index, sawEmpty, mayAppend)]))
  {
  }

  lemma SegmentsAllocate(v: SegmentView, h: nat)
    requires SegmentsOk(v) && h in v.scans && v.scans[h].Scanner?
    ensures SegmentsOk(v.(scans := v.scans[h := Appender(v.scans[h].segment, v.count)], count := v.count + 1))
  {
  }

  lemma SegmentsEnd(v: SegmentView, h: nat)
    requires SegmentsOk(v)
    ensures SegmentsOk(v.(scans := v.scans - {h}))
  {
  }

  lemma SegmentsPublish(v: SegmentView, h: nat)
    requires SegmentsOk(v) && h in v.scans && v.scans[h].Appender? && v.scans[h].segment !in v.next
    ensures
      var g := v.scans[h].newSegment;
      SegmentsOk(v.(ids := v.ids + SegmentSlots(g).Keys,
                    published := v.published + {g},
                    next := v.next[v.scans[h].segment := g],
                    before := v.before[g := v.scans[h].segment],
                    scans := v.scans[h := Scanner(g, 0, false, true)]))
  {
  }

  // ------------------------------------------------- what the invariant says of one party

  lemma ReservationFacts(v: ParkView, park: Parks, h: nat)
    requires ParkSideOk(v, park) && h in v.rs
    ensures Owns(v.slots, v.rs[h]) && v.slots[v.rs[h].slot].state == Reserved && v.rs[h].res !in v.given
  {
  }

  lemma ParkerFacts(v: ParkView, park: Parks, h: nat)
    requires ParkSideOk(v, park) && h in v.ps
    ensures Owns(v.slots, v.ps[h].t) && ParkPhaseOk(v.slots[v.ps[h].t.slot], v.ps[h].t.res, v.ps[h].phase, v.given)
    ensures v.ps[h].t.res !in v.lost
  {
  }

  lemma UnparkerFacts(v: UnparkView, unpark: Unparks, h: nat)
    requires UnparkSideOk(v, unpark) && h in v.us
    ensures Owns(v.slots, v.us[h].t) && UnparkPhaseOk(v.slots[v.us[h].t.slot], v.us[h].t.res, v.us[h].phase, v.given)
  {
  }

  /** A parker's slot is not also a whole reservation's. */
  lemma ParkerAlone(v: ParkView, park: Parks, h: nat)
    requires ParkSideOk(v, park) && h in v.ps
    ensures forall r :: r in v.rs ==> v.rs[r].slot != v.ps[h].t.slot
  {
  }

  lemma UnparkerAlone(v: UnparkView, unpark: Unparks, h: nat)
    requires UnparkSideOk(v, unpark) && h in v.us
    ensures forall r :: r in v.rs ==> v.rs[r].slot != v.us[h].t.slot
  {
  }

  lemma WakerFacts(v: UnparkView, unpark: Unparks, h: nat)
    requires UnparkSideOk(v, unpark) && h in v.ws && v.ws[h].Some?
    ensures Owns(v.slots, v.ws[h].value)
  {
  }

  lemma RootPublished(v: SegmentView)
    requires SegmentsOk(v)
    ensures 0 in v.published
  {
  }

  lemma ScanFacts(v: SegmentView, h: nat)
    requires SegmentsOk(v) && h in v.scans
    ensures v.scans[h].segment in v.published
    ensures v.scans[h].Scanner? ==>
      v.scans[h].index <= SEGMENT_SLOTS && (v.scans[h].sawEmpty ==> v.scans[h].index < SEGMENT_SLOTS)
    ensures v.scans[h].segment in v.next ==> v.next[v.scans[h].segment] in v.published
    ensures v.scans[h].Appender? ==> v.ids !! SegmentSlots(v.scans[h].newSegment).Keys
  {
  }

  /** No two slots are claimed by the same reservation. */
  lemma OneSlotEach(v: ValueView, id: SlotId)
    requires ValuesOk(v) && id in v.slots && v.slots[id].state != Empty
    ensures forall other :: other in v.slots && v.slots[other].state != Empty && v.slots[other].owner == v.slots[id].owner ==> other == id
    ensures v.slots[id].owner < v.nextRes
    ensures v.slots[id].state == Occupied ==> v.slots[id].owner in v.given && v.slots[id].cell == Some(v.given[v.slots[id].owner])
  {
  }

  // -------------------------------------------------------------- the whole steps

  lemma InitialSides()
    ensures ParkSideOk(ParksOf(Initial()), map[]) && UnparkSideOk(UnparksOf(Initial()), map[])
  {
    assert forall id :: id in Initial().slots ==> Initial().slots[id] == FreshSlot();
  }

  lemma InitialInv()
    ensures Inv(Initial())
  {
    hide ParkSideOk, UnparkSideOk;
    var s, w := Initial(), Track(map[], map[], map[], map[], map[]);
    assert forall id :: id in s.slots ==> s.slots[id] == FreshSlot();
    InitialSides();
    assert ValuesOk(ValuesOf(s, w));
    assert InvAt(s, w);
  }

  /** A step that only moves scans. */
  lemma ScansInv(s: Lot, w: Track, scans: map<nat, Scan>, count: nat)
    requires InvAt(s, w) && SegmentsOk(SegmentsOf(s, w).(scans := scans, count := count))
    ensures InvAt(s.(scans := scans, segmentCount := count), w)
  {
    hide ParkSideOk, UnparkSideOk, ValuesOk, SegmentsOk;
  }

  lemma MoveScan(s: Lot, w: Track, h: nat, segment: nat, index: nat, sawEmpty: bool, mayAppend: bool)
    requires InvAt(s, w) && segment in s.published && index <= SEGMENT_SLOTS && (sawEmpty ==> index < SEGMENT_SLOTS)
    ensures InvAt(s.(scans := s.scans[h := Scanner(segment, index, sawEmpty, mayAppend)]), w)
  {
    hide ParkSideOk, UnparkSideOk, ValuesOk, SegmentsOk;
    SegmentsScan(SegmentsOf(s, w), h, segment, index, sawEmpty, mayAppend);
    ScansInv(s, w, s.scans[h := Scanner(segment, index, sawEmpty, mayAppend)], s.segmentCount);
  }

  lemma ScanLoadInv(s: Lot, w: Track, h: nat)
    requires InvAt(s, w) && Enabled(s, DoScanLoad(h))
    ensures InvAt(ScanLoad(s, h), w)
  {
    hide ParkSideOk, UnparkSideOk, ValuesOk, SegmentsOk;
    ScanFacts(SegmentsOf(s, w), h);
    var x := s.scans[h];
    if At(s, SlotId(x.segment, x.index)).state == Empty {
      MoveScan(s, w, h, x.segment, x.index, true, x.mayAppend);
    } else {
      MoveScan(s, w, h, x.segment, x.index + 1, x.sawEmpty, x.mayAppend);
    }
  }

  lemma ScanNextInv(s: Lot, w: Track, h: nat)
    requires InvAt(s, w) && Enabled(s, DoScanAdvance(h)) && s.scans[h].segment in s.next
    ensures InvAt(ScanAdvance(s, h), w)
  {
    hide ParkSideOk, UnparkSideOk, ValuesOk, SegmentsOk;
    ScanFacts(SegmentsOf(s, w), h);
    MoveScan(s, w, h, s.next[s.scans[h].segment], 0, false, s.scans[h].mayAppend);
  }

  lemma ScanAllocateInv(s: Lot, w: Track, h: nat)
    requires InvAt(s, w) && Enabled(s, DoScanAdvance(h)) && s.scans[h].segment !in s.next && s.scans[h].mayAppend
    ensures InvAt(ScanAdvance(s, h), w)
  {
    hide ParkSideOk, UnparkSideOk, ValuesOk, SegmentsOk;
    SegmentsAllocate(SegmentsOf(s, w), h);
    ScansInv(s, w, s.scans[h := Appender(s.scans[h].segment, s.segmentCount)], s.segmentCount + 1);
  }

  lemma ScanFailInv(s: Lot, w: Track, h: nat)
    requires InvAt(s, w) && Enabled(s, DoScanAdvance(h)) && s.scans[h].segment !in s.next && !s.scans[h].mayAppend
    ensures InvAt(ScanAdvance(s, h), w)
  {
    hide ParkSideOk, UnparkSideOk, ValuesOk, SegmentsOk;
    SegmentsEnd(SegmentsOf(s, w), h);
    ScansInv(s, w, s.scans - {h}, s.segmentCount);
  }

  lemma ScanAdvanceInv(s: Lot, w: Track, h: nat)
    requires InvAt(s, w) && Enabled(s, DoScanAdvance(h))
    ensures InvAt(ScanAdvance(s, h), w)
  {
    hide InvAt;
    if s.scans[h].segment in s.next {
      ScanNextInv(s, w, h);
    } else if s.scans[h].mayAppend {
      ScanAllocateInv(s, w, h);
    } else {
      ScanFailInv(s, w, h);
    }
  }

  lemma ClaimFresh(s: Lot, w: Track, h: nat)
    requires InvAt(s, w) && ScannerAt(s, h) && s.scans[h].sawEmpty
    ensures SlotId(s.scans[h].segment, s.scans[h].index) in s.slots
    ensures s.nextRes !in s.given && s.nextRes !in s.lostPark
  {
    assert s.nextRes !in ValuesOf(s, w).home;
    assert SlotId(s.scans[h].segment, s.scans[h].index) in SegmentsOf(s, w).ids;
  }

  lemma ClaimWonInv(s: Lot, w: Track, h: nat, n: nat, id: SlotId) returns (w': Track)
    requires InvAt(s, w) && Enabled(s, DoScanClaim(h, n))
    requires id == SlotId(s.scans[h].segment, s.scans[h].index) && At(s, id).state == Empty
    ensures InvAt(ScanClaim(s, h, n), w')
  {
    hide ParkSideOk, UnparkSideOk, ValuesOk, SegmentsOk;
    ClaimFresh(s, w, h);
    ParkSideClaim(ParksOf(s), w.park, id, n, s.nextRes);
    UnparkSideClaim(UnparksOf(s), w.unpark, id, n, s.nextRes);
    ValuesClaim(ValuesOf(s, w), id);
    SegmentsEnd(SegmentsOf(s, w), h);
    assert ScanClaim(s, h, n).slots.Keys == s.slots.Keys;
    w' := w.(park := w.park[id := InReservation(n)], unpark := w.unpark[id := OfReservation(n)], home := w.home[s.nextRes := id]);
  }

  lemma ClaimLostInv(s: Lot, w: Track, h: nat, n: nat, id: SlotId)
    requires InvAt(s, w) && Enabled(s, DoScanClaim(h, n))
    requires id == SlotId(s.scans[h].segment, s.scans[h].index) && At(s, id).state != Empty
    ensures InvAt(ScanClaim(s, h, n), w)
  {
    hide ParkSideOk, UnparkSideOk, ValuesOk, SegmentsOk;
    ScanFacts(SegmentsOf(s, w), h);
    MoveScan(s, w, h, s.scans[h].segment, s.scans[h].index + 1, false, s.scans[h].mayAppend);
  }

  lemma ScanClaimInv(s: Lot, w: Track, h: nat, n: nat) returns (w': Track)
    requires InvAt(s, w) && Enabled(s, DoScanClaim(h, n))
    ensures InvAt(ScanClaim(s, h, n), w')
  {
    hide InvAt;
    var id := SlotId(s.scans[h].segment, s.scans[h].index);
    if At(s, id).state == Empty {
      w' := ClaimWonInv(s, w, h, n, id);
    } else {
      ClaimLostInv(s, w, h, n, id);
      w' := w;
    }
  }

  lemma AppendLostInv(s: Lot, w: Track, h: nat)
    requires InvAt(s, w) && Enabled(s, DoAppend(h)) && s.scans[h].segment in s.next
    ensures InvAt(Append(s, h), w)
  {
    hide ParkSideOk, UnparkSideOk, ValuesOk, SegmentsOk;
    ScanFacts(SegmentsOf(s, w), h);
    MoveScan(s, w, h, s.next[s.scans[h].segment], 0, false, true);
  }

  lemma AppendWonInv(s: Lot, w: Track, h: nat)
    requires InvAt(s, w) && Enabled(s, DoAppend(h)) && s.scans[h].segment !in s.next
    ensures InvAt(Append(s, h), w.(before := w.before[s.scans[h].newSegment := s.scans[h].segment]))
  {
    hide ParkSideOk, UnparkSideOk, ValuesOk, SegmentsOk;
    ScanFacts(SegmentsOf(s, w), h);
    var x := s.scans[h];
    ParkSideGrow(ParksOf(s), w.park, x.newSegment);
    UnparkSideGrow(UnparksOf(s), w.unpark, x.newSegment);
    ValuesGrow(ValuesOf(s, w), x.newSegment);
    SegmentsPublish(SegmentsOf(s, w), h);
    assert Append(s, h).slots.Keys == s.slots.Keys + SegmentSlots(x.newSegment).Keys;
  }

  lemma AppendInv(s: Lot, w: Track, h: nat) returns (w': Track)
    requires InvAt(s, w) && Enabled(s, DoAppend(h))
    ensures InvAt(Append(s, h), w')
  {
    hide InvAt;
    if s.scans[h].segment in s.next {
      AppendLostInv(s, w, h);
      w' := w;
    } else {
      AppendWonInv(s, w, h);
      w' := w.(before := w.before[s.scans[h].newSegment := s.scans[h].segment]);
    }
  }

  lemma SplitInv(s: Lot, w: Track, h: nat, p: nat, u: nat) returns (w': Track)
    requires InvAt(s, w) && Enabled(s, DoSplit(h, p, u))
    ensures InvAt(Split(s, h, p, u), w')
  {
    hide ParkSideOk, UnparkSideOk, ValuesOk, SegmentsOk;
    ParkSideSplit(ParksOf(s), w.park, h, p);
    UnparkSideSplit(UnparksOf(s), w.unpark, h, u);
    var id := s.reservations[h].slot;
    w' := w.(park := w.park[id := InParker(p)], unpark := w.unpark[id := InUnparker(u)]);
  }

  lemma ReleaseInv(s: Lot, w: Track, h: nat)
    requires InvAt(s, w) && h in s.reservations
    ensures InvAt(Release(s, h), w)
  {
    hide ParkSideOk, UnparkSideOk, ValuesOk, SegmentsOk;
    ReservationFacts(ParksOf(s), w.park, h);
    ParkSideRelease(ParksOf(s), w.park, h);
    UnparkSideRelease(UnparksOf(s), w.unpark, h);
    ValuesRelease(ValuesOf(s, w), s.reservations[h].slot);
    assert Release(s, h).slots.Keys == s.slots.Keys;
  }

  lemma ParkWriteInv(s: Lot, w: Track, h: nat, x: Value)
    requires InvAt(s, w) && ParkerAt(s, h, ParkIdle)
    ensures InvAt(ParkWrite(s, h, x), w)
  {
    hide ParkSideOk, UnparkSideOk, ValuesOk, SegmentsOk;
    ParkerFacts(ParksOf(s), w.park, h);
    OneSlotEach(ValuesOf(s, w), s.parkers[h].t.slot);
    ParkSideWrite(ParksOf(s), w.park, h, x);
    UnparkSideWrite(UnparksOf(s), w.unpark, s.parkers[h].t.slot, s.parkers[h].t.res, x);
    ValuesWrite(ValuesOf(s, w), s.parkers[h].t.slot, x);
    assert ParkWrite(s, h, x).slots.Keys == s.slots.Keys;
  }

  lemma ParkedInv(s: Lot, w: Track, h: nat)
    requires InvAt(s, w) && Enabled(s, DoParkExchange(h)) && At(s, s.parkers[h].t.slot).state == Reserved
    ensures InvAt(ParkExchange(s, h), w)
  {
    hide ParkSideOk, UnparkSideOk, ValuesOk, SegmentsOk;
    var id := s.parkers[h].t.slot;
    ParkerFacts(ParksOf(s), w.park, h);
    ParkerAlone(ParksOf(s), w.park, h);
    ParkSideExchange(ParksOf(s), w.park, h);
    UnparkSideParked(UnparksOf(s), w.unpark, id);
    ValuesExchange(ValuesOf(s, w), id, Occupied);
    assert ParkExchange(s, h).slots.Keys == s.slots.Keys;
  }

  lemma BouncedInv(s: Lot, w: Track, h: nat)
    requires InvAt(s, w) && Enabled(s, DoParkExchange(h)) && At(s, s.parkers[h].t.slot).state != Reserved
    ensures InvAt(ParkExchange(s, h), w)
  {
    hide ParkSideOk, UnparkSideOk, ValuesOk, SegmentsOk;
    ParkerFacts(ParksOf(s), w.park, h);
    ParkSidePhase(ParksOf(s), w.park, h, Bounced);
  }

  lemma ParkExchangeInv(s: Lot, w: Track, h: nat)
    requires InvAt(s, w) && Enabled(s, DoParkExchange(h))
    ensures InvAt(ParkExchange(s, h), w)
  {
    hide InvAt;
    if At(s, s.parkers[h].t.slot).state == Reserved {
      ParkedInv(s, w, h);
    } else {
      BouncedInv(s, w, h);
    }
  }

  lemma ParkFreeInv(s: Lot, w: Track, h: nat) returns (w': Track)
    requires InvAt(s, w) && Enabled(s, DoParkFree(h))
    ensures InvAt(Apply(s, DoParkFree(h)), w')
  {
    hide ParkSideOk, UnparkSideOk, ValuesOk, SegmentsOk;
    ParkerFacts(ParksOf(s), w.park, h);
    var t := s.parkers[h].t;
    ParkSideFree(ParksOf(s), w.park, h);
    UnparkSideParkFree(UnparksOf(s), w.unpark, t.slot);
    ValuesReturn(ValuesOf(s, w), t.slot, true);
    assert ParkFree(s, h).slots.Keys == s.slots.Keys;
    w' := w.(logged := w.logged[t.res := |s.log|]);
  }

  lemma UnparkedInv(s: Lot, w: Track, h: nat)
    requires InvAt(s, w) && UnparkerAt(s, h, UnparkIdle) && At(s, s.unparkers[h].t.slot).state == Reserved
    ensures InvAt(UnparkExchange(s, h), w)
  {
    hide ParkSideOk, UnparkSideOk, ValuesOk, SegmentsOk;
    var id := s.unparkers[h].t.slot;
    UnparkerFacts(UnparksOf(s), w.unpark, h);
    UnparkerAlone(UnparksOf(s), w.unpark, h);
    ParkSideUnparked(ParksOf(s), w.park, id);
    UnparkSideEnd(UnparksOf(s), w.unpark, h, Unparked);
    ValuesExchange(ValuesOf(s, w), id, Unparked);
    assert UnparkExchange(s, h).slots.Keys == s.slots.Keys;
  }

  lemma ClaimingInv(s: Lot, w: Track, h: nat)
    requires InvAt(s, w) && UnparkerAt(s, h, UnparkIdle) && At(s, s.unparkers[h].t.slot).state != Reserved
    ensures InvAt(UnparkExchange(s, h), w)
  {
    hide ParkSideOk, UnparkSideOk, ValuesOk, SegmentsOk;
    UnparkerFacts(UnparksOf(s), w.unpark, h);
    UnparkSidePhase(UnparksOf(s), w.unpark, h, Claiming);
  }

  lemma UnparkExchangeInv(s: Lot, w: Track, h: nat)
    requires InvAt(s, w) && UnparkerAt(s, h, UnparkIdle)
    ensures InvAt(UnparkExchange(s, h), w)
  {
    hide InvAt;
    if At(s, s.unparkers[h].t.slot).state == Reserved {
      UnparkedInv(s, w, h);
    } else {
      ClaimingInv(s, w, h);
    }
  }

  lemma UnparkFreeInv(s: Lot, w: Track, h: nat) returns (w': Track)
    requires InvAt(s, w) && Enabled(s, DoUnparkFree(h))
    ensures InvAt(Apply(s, DoUnparkFree(h)), w')
  {
    hide ParkSideOk, UnparkSideOk, ValuesOk, SegmentsOk;
    UnparkerFacts(UnparksOf(s), w.unpark, h);
    var t := s.unparkers[h].t;
    ParkSideUnparkFree(ParksOf(s), w.park, t.slot);
    UnparkSideEnd(UnparksOf(s), w.unpark, h, Empty);
    ValuesReturn(ValuesOf(s, w), t.slot, false);
    assert UnparkFree(s, h).slots.Keys == s.slots.Keys;
    w' := w.(logged := w.logged[t.res := |s.log|]);
  }

  lemma WakerInv(s: Lot, w: Track, step: Step) returns (w': Track)
    requires InvAt(s, w) && Enabled(s, step) && (step.DoIntoWaker? || step.DoWake?)
    ensures InvAt(Apply(s, step), w')
  {
    hide ParkSideOk, UnparkSideOk, ValuesOk, SegmentsOk;
    match step
    case DoIntoWaker(h, n) =>
      UnparkSideIntoWaker(UnparksOf(s), w.unpark, h, n);
      w' := w.(unpark := w.unpark[s.unparkers[h].t.slot := InWaker(n)]);
    case DoWake(h, n) =>
      w' := w;
      if s.wakers[h].Some? {
        UnparkSideWake(UnparksOf(s), w.unpark, h, n);
        w' := w.(unpark := w.unpark[s.wakers[h].value.slot := InUnparker(n)]);
      } else {
        assert s.wakers[h := None] == s.wakers;
      }
  }

  lemma ParkCellInv(s: Lot, w: Track, step: Step) returns (w': Track)
    requires InvAt(s, w) && Enabled(s, step)
    requires step.DoNewParkCell? || step.DoPutPark? || step.DoPutParkReservation? || step.DoTakePark?
    ensures InvAt(Apply(s, step), w')
  {
    hide ParkSideOk, UnparkSideOk, ValuesOk, SegmentsOk;
    w' := w;
    match step
    case DoNewParkCell(n) =>
      ParkSideNewCell(ParksOf(s), w.park, n);
    case DoPutPark(h, c) =>
      if s.parkCells[c].None? {
        ParkSidePut(ParksOf(s), w.park, h, c);
        w' := w.(park := w.park[s.parkers[h].t.slot := InParkCell(c)]);
      }
    case DoPutParkReservation(h, c, n) =>
      if s.parkCells[c].None? {
        var id := s.reservations[h].slot;
        ParkSidePutReservation(ParksOf(s), w.park, h, c);
        UnparkSideSplit(UnparksOf(s), w.unpark, h, n);
        w' := w.(park := w.park[id := InParkCell(c)], unpark := w.unpark[id := InUnparker(n)]);
      }
    case DoTakePark(c, n) =>
      if s.parkCells[c].Some? {
        ParkSideTake(ParksOf(s), w.park, c, n);
        w' := w.(park := w.park[s.parkCells[c].value.slot := InParker(n)]);
      } else {
        assert s.parkCells[c := None] == s.parkCells;
      }
  }

  lemma UnparkCellInv(s: Lot, w: Track, step: Step) returns (w': Track)
    requires InvAt(s, w) && Enabled(s, step)
    requires step.DoNewUnparkCell? || step.DoPutUnparkReservation? || step.DoTakeUnpark?
    ensures InvAt(Apply(s, step), w')
  {
    hide ParkSideOk, UnparkSideOk, ValuesOk, SegmentsOk;
    w' := w;
    match step
    case DoNewUnparkCell(n) =>
      UnparkSideNewCell(UnparksOf(s), w.unpark, n);
    case DoPutUnparkReservation(h, c, n) =>
      if s.unparkCells[c].None? {
        var id := s.reservations[h].slot;
        ParkSideSplit(ParksOf(s), w.park, h, n);
        UnparkSidePutReservation(UnparksOf(s), w.unpark, h, c);
        w' := w.(park := w.park[id := InParker(n)], unpark := w.unpark[id := InUnparkCell(c)]);
      }
    case DoTakeUnpark(c, n) =>
      if s.unparkCells[c].Some? {
        UnparkSideTake(UnparksOf(s), w.unpark, c, n);
        w' := w.(unpark := w.unpark[s.unparkCells[c].value.slot := InUnparker(n)]);
      } else {
        assert s.unparkCells[c := None] == s.unparkCells;
      }
  }

  lemma LeakReservationInv(s: Lot, w: Track, h: nat)
    requires InvAt(s, w) && h in s.reservations
    ensures InvAt(LeakReservation(s, h), w)
  {
    hide ParkSideOk, UnparkSideOk, ValuesOk, SegmentsOk;
    ReservationFacts(ParksOf(s), w.park, h);
    OneSlotEach(ValuesOf(s, w), s.reservations[h].slot);
    ParkSideLoseReservation(ParksOf(s), w.park, h);
    UnparkSideLoseReservation(UnparksOf(s), w.unpark, h);
  }

  lemma LeakParkInv(s: Lot, w: Track, h: nat)
    requires InvAt(s, w) && ParkerAt(s, h, ParkIdle)
    ensures InvAt(LeakPark(s, h), w)
  {
    hide ParkSideOk, UnparkSideOk, ValuesOk, SegmentsOk;
    ParkerFacts(ParksOf(s), w.park, h);
    OneSlotEach(ValuesOf(s, w), s.parkers[h].t.slot);
    ParkSideLose(ParksOf(s), w.park, h);
  }

  lemma LeakUnparkInv(s: Lot, w: Track, h: nat)
    requires InvAt(s, w) && Enabled(s, DoLeakUnpark(h))
    ensures InvAt(Apply(s, DoLeakUnpark(h)), w)
  {
    hide ParkSideOk, UnparkSideOk, ValuesOk, SegmentsOk;
    UnparkerFacts(UnparksOf(s), w.unpark, h);
    OneSlotEach(ValuesOf(s, w), s.unparkers[h].t.slot);
    UnparkSideLose(UnparksOf(s), w.unpark, h);
  }

  lemma LeakFiredWakerInv(s: Lot, w: Track, h: nat)
    requires InvAt(s, w) && Enabled(s, DoLeakWaker(h)) && s.wakers[h].None?
    ensures InvAt(LeakWaker(s, h), w)
  {
    hide ParkSideOk, UnparkSideOk, ValuesOk, SegmentsOk;
    UnparkSideLoseWaker(UnparksOf(s), w.unpark, h);
  }

  lemma LeakLiveWakerInv(s: Lot, w: Track, h: nat)
    requires InvAt(s, w) && Enabled(s, DoLeakWaker(h)) && s.wakers[h].Some?
    ensures InvAt(LeakWaker(s, h), w)
  {
    hide ParkSideOk, UnparkSideOk, ValuesOk, SegmentsOk;
    WakerFacts(UnparksOf(s), w.unpark, h);
    OneSlotEach(ValuesOf(s, w), s.wakers[h].value.slot);
    UnparkSideLoseWaker(UnparksOf(s), w.unpark, h);
  }

  lemma LeakWakerInv(s: Lot, w: Track, h: nat)
    requires InvAt(s, w) && Enabled(s, DoLeakWaker(h))
    ensures InvAt(LeakWaker(s, h), w)
  {
    hide InvAt;
    if s.wakers[h].None? {
      LeakFiredWakerInv(s, w, h);
    } else {
      LeakLiveWakerInv(s, w, h);
    }
  }

  lemma ParkReadBackInv(s: Lot, w: Track, h: nat)
    requires InvAt(s, w) && ParkerAt(s, h, Bounced)
    ensures InvAt(ParkReadBack(s, h), w)
  {
    hide ParkSideOk, UnparkSideOk, ValuesOk, SegmentsOk;
    ParkerFacts(ParksOf(s), w.park, h);
    ParkSidePhase(ParksOf(s), w.park, h, ParkTook(RawRead(s.slots[s.parkers[h].t.slot].cell)));
  }

  lemma UnparkReadInv(s: Lot, w: Track, h: nat)
    requires InvAt(s, w) && UnparkerAt(s, h, Claiming)
    ensures InvAt(UnparkRead(s, h), w)
  {
    hide ParkSideOk, UnparkSideOk, ValuesOk, SegmentsOk;
    UnparkerFacts(UnparksOf(s), w.unpark, h);
    OneSlotEach(ValuesOf(s, w), s.unparkers[h].t.slot);
    UnparkSidePhase(UnparksOf(s), w.unpark, h, UnparkTook(RawRead(s.slots[s.unparkers[h].t.slot].cell)));
  }

  lemma TransferInv(s: Lot, w: Track, step: Step) returns (w': Track)
    requires InvAt(s, w) && Enabled(s, step)
    requires step.DoIntoWaker? || step.DoWake? || step.DoNewParkCell? || step.DoPutPark? || step.DoPutParkReservation?
          || step.DoTakePark? || step.DoNewUnparkCell? || step.DoPutUnparkReservation? || step.DoTakeUnpark?
    ensures InvAt(Apply(s, step), w')
  {
    hide InvAt;
    if step.DoIntoWaker? || step.DoWake? {
      w' := WakerInv(s, w, step);
    } else if step.DoNewUnparkCell? || step.DoPutUnparkReservation? || step.DoTakeUnpark? {
      w' := UnparkCellInv(s, w, step);
    } else {
      w' := ParkCellInv(s, w, step);
    }
  }

  lemma StartScanInv(s: Lot, w: Track, n: nat, mayAppend: bool)
    requires InvAt(s, w) && Enabled(s, DoStartScan(n, mayAppend))
    ensures InvAt(Apply(s, DoStartScan(n, mayAppend)), w)
  {
    hide ParkSideOk, UnparkSideOk, ValuesOk, SegmentsOk;
    RootPublished(SegmentsOf(s, w));
    MoveScan(s, w, n, 0, 0, false, mayAppend);
  }

  lemma ScanStepInv(s: Lot, w: Track, step: Step) returns (w': Track)
    requires InvAt(s, w) && Enabled(s, step)
    requires step.DoStartScan? || step.DoScanLoad? || step.DoScanClaim? || step.DoScanAdvance? || step.DoAppend?
    ensures InvAt(Apply(s, step), w')
  {
    hide InvAt;
    w' := w;
    match step
    case DoStartScan(n, mayAppend) => StartScanInv(s, w, n, mayAppend);
    case DoScanLoad(h) => ScanLoadInv(s, w, h);
    case DoScanClaim(h, n) => w' := ScanClaimInv(s, w, h, n);
    case DoScanAdvance(h) => ScanAdvanceInv(s, w, h);
    case DoAppend(h) => w' := AppendInv(s, w, h);
  }

  lemma StepInv(s: Lot, w: Track, step: Step) returns (w': Track)
    requires InvAt(s, w) && Enabled(s, step)
    ensures InvAt(Apply(s, step), w')
  {
    hide InvAt;
    w' := w;
    match step
    case DoSplit(h, p, u) => w' := SplitInv(s, w, h, p, u);
    case DoRelease(h) => ReleaseInv(s, w, h);
    case DoParkWrite(h, x) => ParkWriteInv(s, w, h, x);
    case DoParkExchange(h) => ParkExchangeInv(s, w, h);
    case DoParkReadBack(h) => ParkReadBackInv(s, w, h);
    case DoParkFree(h) => w' := ParkFreeInv(s, w, h);
    case DoUnparkExchange(h) => UnparkExchangeInv(s, w, h);
    case DoUnparkRead(h) => UnparkReadInv(s, w, h);
    case DoUnparkFree(h) => w' := UnparkFreeInv(s, w, h);
    case DoLeakReservation(h) => LeakReservationInv(s, w, h);
    case DoLeakPark(h) => LeakParkInv(s, w, h);
    case DoLeakUnpark(h) => LeakUnparkInv(s, w, h);
    case DoLeakWaker(h) => LeakWakerInv(s, w, h);
    case DoStartScan(_, _) => w' := ScanStepInv(s, w, step);
    case DoScanLoad(_) => w' := ScanStepInv(s, w, step);
    case DoScanClaim(_, _) => w' := ScanStepInv(s, w, step);
    case DoScanAdvance(_) => w' := ScanStepInv(s, w, step);
    case DoAppend(_) => w' := ScanStepInv(s, w, step);
    case _ => w' := TransferInv(s, w, step);
  }

  // ------------------------------------------------------------------- the claims

  /** No slot has two park rights or two unpark rights. */
  ghost predicate RightsExclusive(s: Lot) {
    && (forall p, q, id :: ParkHeld(ParksOf(s), p, id) && ParkHeld(ParksOf(s), q, id) ==> p == q)
    && (forall p, q, id :: UnparkHeld(UnparksOf(s), p, id) && UnparkHeld(UnparksOf(s), q, id) ==> p == q)
  }

  /** Whoever can still act on a slot acts for the reservation that holds it now. */
  ghost predicate NeverStale(s: Lot) {
    && (forall h :: h in s.reservations ==> Owns(s.slots, s.reservations[h]))
    && (forall h :: h in s.parkers ==> Owns(s.slots, s.parkers[h].t))
    && (forall c :: c in s.parkCells && s.parkCells[c].Some? ==> Owns(s.slots, s.parkCells[c].value))
    && (forall h :: h in s.unparkers ==> Owns(s.slots, s.unparkers[h].t))
    && (forall c :: c in s.unparkCells && s.unparkCells[c].Some? ==> Owns(s.slots, s.unparkCells[c].value))
    && (forall w :: w in s.wakers && s.wakers[w].Some? ==> Owns(s.slots, s.wakers[w].value))
  }

  ghost predicate Returned(s: Lot, r: nat) {
    exists i :: 0 <= i < |s.log| && s.log[i].res == r
  }

  /** The value sits in an occupied slot. */
  ghost predicate Resting(s: Lot, r: nat) {
    exists id :: id in s.slots && s.slots[id] == Slot(Occupied, Some(if r in s.given then s.given[r] else 0), r)
  }

  /** The value is with a `park` call that has not finished. */
  ghost predicate Carried(s: Lot, r: nat) {
    exists h :: h in s.parkers && s.parkers[h].t.res == r && s.parkers[h].phase != ParkIdle
  }

  /** Each value handed back is the one given, at most once, and until then it is in exactly
  one of an occupied slot and an unfinished `park` call. */
  ghost predicate ExactlyOnce(s: Lot) {
    && (forall i :: 0 <= i < |s.log| ==> s.log[i].res in s.given && s.given[s.log[i].res] == s.log[i].value)
    && (forall i, j :: 0 <= i < j < |s.log| ==> s.log[i].res != s.log[j].res)
    && (forall r :: r in s.given ==>
          && (Returned(s, r) || Resting(s, r) || Carried(s, r))
          && !(Returned(s, r) && Resting(s, r))
          && !(Returned(s, r) && Carried(s, r))
          && !(Resting(s, r) && Carried(s, r)))
  }

  /** A claimed slot can always be finished: each side that has not acted still owns its right,
  unless that right was dropped. */
  ghost predicate NotStranded(s: Lot) {
    forall id :: id in s.slots && s.slots[id].state != Empty ==>
      && (s.slots[id].state != Occupied && s.slots[id].owner !in s.lostPark ==> exists p :: ParkHeld(ParksOf(s), p, id))
      && (s.slots[id].state != Unparked && s.slots[id].owner !in s.lostUnpark ==> exists p :: UnparkHeld(UnparksOf(s), p, id))
  }

  ghost predicate Safe(s: Lot) {
    RightsExclusive(s) && NeverStale(s) && ExactlyOnce(s) && NotStranded(s)
  }

  lemma ParkRightsExclusive(v: ParkView, park: Parks)
    requires ParkSideOk(v, park)
    ensures forall p, q, id :: ParkHeld(v, p, id) && ParkHeld(v, q, id) ==> p == q
  {
    assert forall p, id :: ParkHeld(v, p, id) ==> id in park && park[id] == p;
  }

  lemma UnparkRightsExclusive(v: UnparkView, unpark: Unparks)
    requires UnparkSideOk(v, unpark)
    ensures forall p, q, id :: UnparkHeld(v, p, id) && UnparkHeld(v, q, id) ==> p == q
  {
    assert forall p, id :: UnparkHeld(v, p, id) ==> id in unpark && unpark[id] == p;
  }

  lemma InvExclusive(s: Lot, w: Track)
    requires InvAt(s, w)
    ensures RightsExclusive(s)
  {
    hide ParkSideOk, UnparkSideOk, ValuesOk, SegmentsOk;
    hide ParkHeld, UnparkHeld;
    ParkRightsExclusive(ParksOf(s), w.park);
    UnparkRightsExclusive(UnparksOf(s), w.unpark);
  }

  lemma InvStale(s: Lot, w: Track)
    requires InvAt(s, w)
    ensures NeverStale(s)
  {
    hide ValuesOk, SegmentsOk;
  }

  lemma InvStranded(s: Lot, w: Track)
    requires InvAt(s, w)
    ensures NotStranded(s)
  {
    hide ValuesOk, SegmentsOk;
  }

  lemma InvOnce(s: Lot, w: Track, r: nat)
    requires InvAt(s, w) && r in s.given
    ensures Returned(s, r) || Resting(s, r) || Carried(s, r)
    ensures !(Returned(s, r) && Resting(s, r)) && !(Returned(s, r) && Carried(s, r)) && !(Resting(s, r) && Carried(s, r))
  {
    hide UnparkSideOk, SegmentsOk;
    var id := w.home[r];
    if r in w.logged {
      assert s.log[w.logged[r]].res == r;
    } else if s.slots[id].state == Occupied {
      assert s.slots[id] == Slot(Occupied, Some(s.given[r]), r);
    } else {
      assert ParkHeld(ParksOf(s), w.park[id], id);
    }
  }

  lemma InvSafe(s: Lot)
    requires Inv(s)
    ensures Safe(s)
  {
    var w :| InvAt(s, w);
    InvExclusive(s, w);
    InvStale(s, w);
    InvStranded(s, w);
    forall r | r in s.given
      ensures Returned(s, r) || Resting(s, r) || Carried(s, r)
      ensures !(Returned(s, r) && Resting(s, r)) && !(Returned(s, r) && Carried(s, r)) && !(Resting(s, r) && Carried(s, r))
    {
      InvOnce(s, w, r);
    }
  }

  lemma {:induction false} RunInv(run: seq<Lot>, i: nat)
    requires IsRun(run) && i < |run|
    ensures Inv(run[i])
  {
    if i == 0 {
      InitialInv();
    } else {
      RunInv(run, i - 1);
      assert Next(run[i - 1], run[i - 1 + 1]);
      var step :| Enabled(run[i - 1], step) && run[i] == Apply(run[i - 1], step);
      var w :| InvAt(run[i - 1], w);
      var w' := StepInv(run[i - 1], w, step);
    }
  }

  /** In every state of every run the lot is safe. */
  lemma RunSafe(run: seq<Lot>, i: nat)
    requires IsRun(run) && i < |run|
    ensures Safe(run[i])
  {
    RunInv(run, i);
    InvSafe(run[i]);
  }

  // ---------------------------------------------------------------- lot growth

  /** Following `next` from the head reaches the segment. */
  ghost predicate Reaches(next: map<nat, nat>, path: seq<nat>, g: nat) {
    && |path| > 0 && path[0] == 0 && path[|path| - 1] == g
    && forall i :: 0 <= i < |path| - 1 ==> path[i] in next && next[path[i]] == path[i + 1]
  }

  lemma {:induction false} ChainPath(v: SegmentView, g: nat) returns (path: seq<nat>)
    requires SegmentsOk(v) && g in v.published
    ensures Reaches(v.next, path, g)
    decreases g
  {
    if g == 0 {
      path := [0];
    } else {
      var before := ChainPath(v, v.before[g]);
      path := before + [g];
    }
  }

  /** Every slot of the lot is on the chain a `reserve` call walks. */
  lemma RunChain(run: seq<Lot>, i: nat, id: SlotId) returns (path: seq<nat>)
    requires IsRun(run) && i < |run| && id in run[i].slots
    ensures Reaches(run[i].next, path, id.segment) && id.index < SEGMENT_SLOTS
  {
    RunInv(run, i);
    var w :| InvAt(run[i], w);
    path := ChainPath(SegmentsOf(run[i], w), id.segment);
  }
}
