/** Every run of the parking lot, seen from one reservation, is a run of one slot on which park, unpark
and release are single steps. */
module ParkingLotStages {
  import opened Basics
  import opened ParkingLot
  import opened ParkingLotProof
  import ParkSlot

  /** Slot `id` as reservation `r` sees it; once it is freed, or before it was claimed, it is Done. */
  function Stage(s: Lot, id: SlotId, r: nat): ParkSlot.Slot {
    if id !in s.slots || s.slots[id].owner != r then ParkSlot.Done
    else
      match s.slots[id].state
      case Empty => ParkSlot.Done
      case Reserved => ParkSlot.Reserved
      case Occupied => ParkSlot.Occupied(RawRead(s.slots[id].cell))
      case Unparked => ParkSlot.Unparked
  }

  /** A value goes in with a park and comes out with the operation that ends the slot, and nowhere else. */
  ghost predicate HandsOver(s: Lot, s': Lot, r: nat, a: ParkSlot.Slot, b: ParkSlot.Slot) {
    match (a, b)
    case (Reserved, Occupied(v)) => s'.log == s.log && r in s.given && s.given[r] == v
    case (Reserved, Unparked) => s'.log == s.log
    case (Reserved, Done) => s'.log == s.log && r !in s.given
    case (Occupied(v), Done) => s'.log == s.log + [Return(r, v, false)]
    case (Unparked, Done) => r in s.given && s'.log == s.log + [Return(r, s.given[r], true)]
    case _ => false
  }

  ghost predicate StageMoves(s: Lot, s': Lot, id: SlotId, r: nat) {
    var a, b := Stage(s, id, r), Stage(s', id, r);
    ParkSlot.Moves(a, b) && (a == b || HandsOver(s, s', r, a, b))
  }

  lemma SameStage(s: Lot, s': Lot, id: SlotId, r: nat)
    requires s'.slots == s.slots
    ensures StageMoves(s, s', id, r)
  {
  }

  lemma ClaimMoves(s: Lot, h: nat, n: nat, id: SlotId, r: nat)
    requires h in s.scans && s.scans[h].Scanner? && r < s.nextRes
    ensures StageMoves(s, ScanClaim(s, h, n), id, r)
  {
  }

  lemma AppendMoves(s: Lot, w: Track, h: nat, id: SlotId, r: nat)
    requires InvAt(s, w) && h in s.scans && s.scans[h].Appender?
    ensures StageMoves(s, Append(s, h), id, r)
  {
    hide ParkSideOk, UnparkSideOk, ValuesOk, SegmentsOk, LostOk;
    ScanFacts(SegmentsOf(s, w), h);
  }

  lemma ReleaseMoves(s: Lot, w: Track, h: nat, id: SlotId, r: nat)
    requires InvAt(s, w) && h in s.reservations
    ensures StageMoves(s, Release(s, h), id, r)
  {
    hide ParkSideOk, UnparkSideOk, ValuesOk, SegmentsOk, LostOk;
    ReservationFacts(ParksOf(s), w.park, h);
  }

  lemma WriteMoves(s: Lot, w: Track, h: nat, v: Value, id: SlotId, r: nat)
    requires InvAt(s, w) && ParkerAt(s, h, ParkIdle)
    ensures StageMoves(s, ParkWrite(s, h, v), id, r)
  {
    hide ParkSideOk, UnparkSideOk, ValuesOk, SegmentsOk, LostOk;
    ParkerFacts(ParksOf(s), w.park, h);
  }

  lemma ParkMoves(s: Lot, w: Track, h: nat, id: SlotId, r: nat)
    requires InvAt(s, w) && h in s.parkers && s.parkers[h].phase.Written?
    ensures StageMoves(s, ParkExchange(s, h), id, r)
  {
    hide ParkSideOk, UnparkSideOk, ValuesOk, SegmentsOk, LostOk;
    ParkerFacts(ParksOf(s), w.park, h);
  }

  lemma BounceMoves(s: Lot, w: Track, h: nat, id: SlotId, r: nat)
    requires InvAt(s, w) && h in s.parkers && s.parkers[h].phase.ParkTook?
    ensures StageMoves(s, ParkFree(s, h), id, r)
  {
    hide ParkSideOk, UnparkSideOk, ValuesOk, SegmentsOk, LostOk;
    ParkerFacts(ParksOf(s), w.park, h);
  }

  lemma UnparkMoves(s: Lot, w: Track, h: nat, id: SlotId, r: nat)
    requires InvAt(s, w) && UnparkerAt(s, h, UnparkIdle)
    ensures StageMoves(s, UnparkExchange(s, h), id, r)
  {
    hide ParkSideOk, UnparkSideOk, ValuesOk, SegmentsOk, LostOk;
    UnparkerFacts(UnparksOf(s), w.unpark, h);
  }

  lemma TakeMoves(s: Lot, w: Track, h: nat, id: SlotId, r: nat)
    requires InvAt(s, w) && h in s.unparkers && s.unparkers[h].phase.UnparkTook?
    ensures StageMoves(s, UnparkFree(s, h), id, r)
  {
    hide ParkSideOk, UnparkSideOk, ValuesOk, SegmentsOk, LostOk;
    UnparkerFacts(UnparksOf(s), w.unpark, h);
    OneSlotEach(ValuesOf(s, w), s.unparkers[h].t.slot);
  }

  /** The steps that change no slot. */
  predicate LeavesSlots(step: Step) {
    && !step.DoScanClaim? && !step.DoAppend? && !step.DoRelease? && !step.DoParkWrite? && !step.DoParkExchange?
    && !step.DoParkFree? && !step.DoUnparkExchange? && !step.DoUnparkFree?
  }

  lemma SlotsStay(s: Lot, step: Step)
    requires Enabled(s, step) && LeavesSlots(step)
    ensures Apply(s, step).slots == s.slots
  {
  }

  lemma ParkSideMoves(s: Lot, w: Track, step: Step, id: SlotId, r: nat)
    requires InvAt(s, w) && Enabled(s, step) && (step.DoParkWrite? || step.DoParkExchange? || step.DoParkFree?)
    ensures StageMoves(s, Apply(s, step), id, r)
  {
    hide InvAt, StageMoves, ParkWrite, ParkExchange, ParkFree;
    match step
    case DoParkWrite(h, v) => WriteMoves(s, w, h, v, id, r);
    case DoParkExchange(h) => ParkMoves(s, w, h, id, r);
    case DoParkFree(h) => BounceMoves(s, w, h, id, r);
  }

  lemma StepMoves(s: Lot, w: Track, step: Step, id: SlotId, r: nat)
    requires InvAt(s, w) && Enabled(s, step) && r < s.nextRes
    ensures StageMoves(s, Apply(s, step), id, r)
  {
    hide InvAt, StageMoves;
    if LeavesSlots(step) {
      SlotsStay(s, step);
      SameStage(s, Apply(s, step), id, r);
    } else {
      hide ScanClaim, Append, Release, ParkWrite, ParkExchange, ParkFree, UnparkExchange, UnparkFree;
      match step
      case DoScanClaim(h, n) => ClaimMoves(s, h, n, id, r);
      case DoAppend(h) => AppendMoves(s, w, h, id, r);
      case DoRelease(h) => ReleaseMoves(s, w, h, id, r);
      case DoUnparkExchange(h) => UnparkMoves(s, w, h, id, r);
      case DoUnparkFree(h) => TakeMoves(s, w, h, id, r);
      case DoParkWrite(_, _) | DoParkExchange(_) | DoParkFree(_) => ParkSideMoves(s, w, step, id, r);
    }
  }

  /** From its claim on a reservation's slot goes through a park, an unpark or a release at a time, in
  every run, and is handed what those single steps hand over. */
  lemma RunStages(run: seq<Lot>, i: nat, id: SlotId, r: nat)
    requires IsRun(run) && i + 1 < |run| && r < run[i].nextRes
    ensures StageMoves(run[i], run[i + 1], id, r)
  {
    RunInv(run, i);
    hide StageMoves;
    assert Next(run[i], run[i + 1]);
    var step :| Enabled(run[i], step) && run[i + 1] == Apply(run[i], step);
    var w :| InvAt(run[i], w);
    StepMoves(run[i], w, step, id, r);
  }

  /** Reservation `r` has no slot in `s` and reserves `home`, and no other, in `s'`. */
  ghost predicate Starts(s: Lot, s': Lot, r: nat, home: SlotId) {
    && (forall id :: Stage(s, id, r) == ParkSlot.Done)
    && (forall id :: Stage(s', id, r) == if id == home then ParkSlot.Reserved else ParkSlot.Done)
  }

  lemma ClaimStarts(s: Lot, w: Track, h: nat, n: nat) returns (home: SlotId)
    requires InvAt(s, w) && Enabled(s, DoScanClaim(h, n)) && ScanClaim(s, h, n).nextRes != s.nextRes
    ensures Starts(s, ScanClaim(s, h, n), s.nextRes, home)
  {
    hide ParkSideOk, UnparkSideOk, ValuesOk, SegmentsOk, LostOk;
    home := SlotId(s.scans[h].segment, s.scans[h].index);
    forall id ensures Stage(s, id, s.nextRes) == ParkSlot.Done {
      if id in s.slots && s.slots[id].state != Empty {
        OneSlotEach(ValuesOf(s, w), id);
      }
    }
    forall id ensures Stage(ScanClaim(s, h, n), id, s.nextRes) == if id == home then ParkSlot.Reserved else ParkSlot.Done {
      assert id != home ==> Stage(ScanClaim(s, h, n), id, s.nextRes) == Stage(s, id, s.nextRes);
    }
  }

  lemma OnlyClaimsNumber(s: Lot, step: Step)
    requires Enabled(s, step) && !step.DoScanClaim?
    ensures Apply(s, step).nextRes == s.nextRes
  {
  }

  /** A new reservation starts out Reserved, in one slot. */
  lemma RunStarts(run: seq<Lot>, i: nat) returns (home: SlotId)
    requires IsRun(run) && i + 1 < |run| && run[i + 1].nextRes != run[i].nextRes
    ensures Starts(run[i], run[i + 1], run[i].nextRes, home)
  {
    hide Starts;
    RunInv(run, i);
    assert Next(run[i], run[i + 1]);
    var step :| Enabled(run[i], step) && run[i + 1] == Apply(run[i], step);
    var w :| InvAt(run[i], w);
    hide InvAt, IsRun;
    if !step.DoScanClaim? {
      OnlyClaimsNumber(run[i], step);
    }
    home := ClaimStarts(run[i], w, step.h, step.n);
  }
}
