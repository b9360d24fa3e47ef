/** The calls of the parking lot as code over shared memory, with the other parties at work between
any two of their atomic operations.

`others` is what those parties do: at each point where the call can be overtaken, the next list of
steps is taken off it, and every step that is possible and leaves alone what only the call itself can
name is done.  The lists are arbitrary, so the contracts hold whatever the others do. */
module ParkingLotCalls {
  import opened Basics
  import opened ParkingLot
  import opened ParkingLotProof

  /** The value only the call itself can use. */
  datatype Own = OwnParker(h: nat) | OwnUnparker(h: nat) | OwnScan(h: nat, n: nat)

  /** The other parties left the call's own value alone, as they must: only the call can name it. */
  predicate Kept(s: Lot, s': Lot, own: Own) {
    match own
    case OwnParker(h) => h in s.parkers ==> h in s'.parkers && s'.parkers[h] == s.parkers[h]
    case OwnUnparker(h) => h in s.unparkers ==> h in s'.unparkers && s'.unparkers[h] == s.unparkers[h]
    case OwnScan(h, n) =>
      && (h in s.scans ==> h in s'.scans && s'.scans[h] == s.scans[h])
      && (n !in s.reservations ==> n !in s'.reservations)
  }

  /** What is given is given for good. */
  ghost predicate Grows(s: Lot, s': Lot) {
    forall r :: r in s.given ==> r in s'.given && s'.given[r] == s.given[r]
  }

  // ------------------------------------------------------------- what a step leaves alone

  lemma IdleNotGiven(s: Lot, h: nat)
    requires Inv(s) && ParkerAt(s, h, ParkIdle)
    ensures s.parkers[h].t.res !in s.given
  {
    hide UnparkSideOk, ValuesOk, SegmentsOk;
    var w :| InvAt(s, w);
    hide ParkSideOk;
    ParkerFacts(ParksOf(s), w.park, h);
  }

  /** Steps that claim a slot or split and release a claim. */
  predicate OfReserve(step: Step) {
    || step.DoStartScan? || step.DoScanLoad? || step.DoScanClaim? || step.DoScanAdvance? || step.DoAppend?
    || step.DoSplit? || step.DoRelease?
  }

  /** Steps of `park` and `unpark`. */
  predicate OfCall(step: Step) {
    || step.DoParkWrite? || step.DoParkExchange? || step.DoParkReadBack? || step.DoParkFree?
    || step.DoUnparkExchange? || step.DoUnparkRead? || step.DoUnparkFree?
  }

  lemma ReserveKeepsGiven(s: Lot, step: Step)
    requires Enabled(s, step) && OfReserve(step)
    ensures Apply(s, step).given == s.given
  {
    match step {
      case DoStartScan(_, _) | DoScanLoad(_) | DoScanClaim(_, _) | DoScanAdvance(_) | DoAppend(_) | DoSplit(_, _, _)
         | DoRelease(_) =>
    }
  }

  lemma CallKeepsGiven(s: Lot, step: Step)
    requires Enabled(s, step) && OfCall(step) && !step.DoParkWrite?
    ensures Apply(s, step).given == s.given
  {
    match step {
      case DoParkExchange(_) | DoParkReadBack(_) | DoParkFree(_) | DoUnparkExchange(_) | DoUnparkRead(_)
         | DoUnparkFree(_) =>
    }
  }

  lemma TransferKeepsGiven(s: Lot, step: Step)
    requires Enabled(s, step) && !OfReserve(step) && !OfCall(step)
    ensures Apply(s, step).given == s.given
  {
    match step {
      case DoIntoWaker(_, _) | DoWake(_, _) | DoNewParkCell(_) | DoNewUnparkCell(_) | DoPutPark(_, _)
         | DoPutParkReservation(_, _, _) | DoTakePark(_, _) | DoPutUnparkReservation(_, _, _) | DoTakeUnpark(_, _)
         | DoLeakReservation(_) | DoLeakPark(_) | DoLeakUnpark(_) | DoLeakWaker(_) =>
    }
  }

  lemma SameGiven(s: Lot, step: Step)
    requires Enabled(s, step) && !step.DoParkWrite?
    ensures Apply(s, step).given == s.given
  {
    hide Enabled, Apply, OfReserve, OfCall;
    if OfReserve(step) {
      ReserveKeepsGiven(s, step);
    } else if OfCall(step) {
      CallKeepsGiven(s, step);
    } else {
      TransferKeepsGiven(s, step);
    }
  }

  lemma StepGrows(s: Lot, step: Step)
    requires Inv(s) && Enabled(s, step)
    ensures Grows(s, Apply(s, step))
  {
    hide Inv;
    if step.DoParkWrite? {
      IdleNotGiven(s, step.h);
    } else {
      hide Enabled, Apply;
      SameGiven(s, step);
    }
  }

  lemma StepKeepsInv(s: Lot, step: Step)
    requires Inv(s) && Enabled(s, step)
    ensures Inv(Apply(s, step))
  {
    hide InvAt;
    var w :| InvAt(s, w);
    var w' := StepInv(s, w, step);
  }

  // ------------------------------------------------------------- what the invariant says of one party

  lemma ParkerInv(s: Lot, h: nat)
    requires Inv(s) && h in s.parkers
    ensures var p := s.parkers[h];
      Owns(s.slots, p.t) && ParkPhaseOk(s.slots[p.t.slot], p.t.res, p.phase, s.given)
  {
    hide ParkSideOk, UnparkSideOk, ValuesOk, SegmentsOk;
    var w :| InvAt(s, w);
    ParkerFacts(ParksOf(s), w.park, h);
  }

  lemma UnparkerInv(s: Lot, h: nat)
    requires Inv(s) && h in s.unparkers
    ensures var u := s.unparkers[h];
      Owns(s.slots, u.t) && UnparkPhaseOk(s.slots[u.t.slot], u.t.res, u.phase, s.given)
  {
    hide ParkSideOk, UnparkSideOk, ValuesOk, SegmentsOk;
    var w :| InvAt(s, w);
    UnparkerFacts(UnparksOf(s), w.unpark, h);
  }

  /** Nobody is published between a segment and its successor. */
  lemma {:induction false} NoneBetween(v: SegmentView, b: nat, m: nat)
    requires SegmentsOk(v) && b in v.next && m in v.published
    ensures m <= b || v.next[b] <= m
    decreases m
  {
    if b < m < v.next[b] {
      var b' := v.before[m];
      if b' < b {
        NoneBetween(v, b', b);
      } else if b < b' {
        NoneBetween(v, b, b');
      }
    }
  }

  /** The segment without a successor is the newest. */
  lemma {:induction false} LastIsNewest(v: SegmentView, g: nat, k: nat)
    requires SegmentsOk(v) && g in v.published && g !in v.next && k in v.published
    ensures k <= g
    decreases k
  {
    if k > g {
      LastIsNewest(v, g, v.before[k]);
      NoneBetween(v, v.before[k], g);
    }
  }

  lemma ScanInv(s: Lot, h: nat)
    requires Inv(s) && h in s.scans
    ensures s.scans[h].segment in s.published && s.scans[h].segment < s.segmentCount
    ensures forall i :: 0 <= i < SEGMENT_SLOTS ==> SlotId(s.scans[h].segment, i) in s.slots
    ensures s.scans[h].Scanner? && s.scans[h].sawEmpty ==> s.scans[h].index < SEGMENT_SLOTS
  {
    hide ParkSideOk, UnparkSideOk, ValuesOk;
    var w :| InvAt(s, w);
  }

  lemma NextInv(s: Lot, g: nat)
    requires Inv(s) && g in s.next
    ensures g < s.next[g]
    ensures forall id :: id in s.slots && id.segment < s.next[g] ==> id.segment <= g && id.index < SEGMENT_SLOTS
  {
    hide ParkSideOk, UnparkSideOk, ValuesOk;
    var w :| InvAt(s, w);
    var v := SegmentsOf(s, w);
    forall id | id in s.slots && id.segment < s.next[g] ensures id.segment <= g && id.index < SEGMENT_SLOTS {
      assert id in v.ids;
      NoneBetween(v, g, id.segment);
    }
  }

  lemma LastInv(s: Lot, g: nat)
    requires Inv(s) && g in s.published && g !in s.next
    ensures forall id :: id in s.slots ==> id.segment <= g && id.index < SEGMENT_SLOTS
  {
    hide ParkSideOk, UnparkSideOk, ValuesOk;
    var w :| InvAt(s, w);
    var v := SegmentsOf(s, w);
    forall id | id in s.slots ensures id.segment <= g && id.index < SEGMENT_SLOTS {
      assert id in v.ids;
      LastIsNewest(v, g, id.segment);
    }
  }

  // ------------------------------------------------------------- the calls

  class Shared {
    var lot: Lot
    var others: seq<seq<Step>>

    constructor (interference: seq<seq<Step>>)
      ensures Inv(lot) && lot == Initial() && others == interference
    {
      lot, others := Initial(), interference;
      InitialInv();
    }

    /** One atomic operation of the call. */
    method Do(step: Step)
      requires Inv(lot) && Enabled(lot, step)
      modifies this`lot
      ensures Inv(lot) && lot == Apply(old(lot), step) && Grows(old(lot), lot)
    {
      hide Inv, Enabled, Apply, Grows;
      StepKeepsInv(lot, step);
      StepGrows(lot, step);
      lot := Apply(lot, step);
    }

    /** The other parties, between two operations of the call. */
    method Overtaken(own: Own)
      requires Inv(lot)
      modifies this
      ensures Inv(lot) && Kept(old(lot), lot, own) && Grows(old(lot), lot)
      ensures if old(others) == [] then others == [] && lot == old(lot) else |others| < |old(others)|
    {
      hide Inv, Enabled, Apply;
      if others == [] {
        return;
      }
      var steps := others[0];
      others := others[1..];
      for i := 0 to |steps|
        invariant Inv(lot) && Kept(old(lot), lot, own) && Grows(old(lot), lot)
        invariant others == old(others)[1..]
      {
        if Enabled(lot, steps[i]) && Kept(lot, Apply(lot, steps[i]), own) {
          Do(steps[i]);
        }
      }
    }

    /** Parks `v`, or gives it back when the unpark side was first: either way it is the caller's own
    value, in the slot of the caller's own reservation. */
    method Park(h: nat, v: Value) returns (back: Option<Value>)
      requires Inv(lot) && ParkerAt(lot, h, ParkIdle)
      modifies this
      ensures Inv(lot) && Grows(old(lot), lot) && h !in lot.parkers
      ensures var t := old(lot).parkers[h].t;
        && t.res !in old(lot).given && GivenIs(lot, t.res, v)
        && match back
           case None => t.slot in lot.slots && lot.slots[t.slot] == Slot(Occupied, Some(v), t.res)
           case Some(x) => x == v && JustReturned(lot, Return(t.res, v, true))
    {
      hide Inv, Grows;
      var t := lot.parkers[h].t;
      IdleNotGiven(lot, h);
      Do(DoParkWrite(h, v));
      ghost var written := lot;
      Overtaken(OwnParker(h));
      GrowsOn(old(lot), written, lot);
      ParkerInv(lot, h);
      ghost var before := lot;
      Do(DoParkExchange(h));
      GrowsOn(old(lot), before, lot);
      if h !in lot.parkers {
        return None;
      }
      ghost var bounced := lot;
      back := TakeBack(h, v);
      GrowsOn(old(lot), bounced, lot);
    }

    /** The exchange failed, so the cell still holds the value just written. */
    method TakeBack(h: nat, ghost v: Value) returns (back: Option<Value>)
      requires Inv(lot) && ParkerAt(lot, h, Bounced) && GivenIs(lot, lot.parkers[h].t.res, v)
      modifies this
      ensures Inv(lot) && Grows(old(lot), lot) && h !in lot.parkers
      ensures back == Some(v) && GivenIs(lot, old(lot).parkers[h].t.res, v)
      ensures JustReturned(lot, Return(old(lot).parkers[h].t.res, v, true))
    {
      hide Inv, Grows;
      var t := lot.parkers[h].t;
      Overtaken(OwnParker(h));
      GrowsGiven(old(lot), lot, t.res, v);
      ParkerInv(lot, h);
      ghost var overtaken := lot;
      Do(DoParkReadBack(h));
      GrowsOn(old(lot), overtaken, lot);
      back := Some(lot.parkers[h].phase.v);
      overtaken := lot;
      Overtaken(OwnParker(h));
      GrowsOn(old(lot), overtaken, lot);
      overtaken := lot;
      Do(DoParkFree(h));
      GrowsOn(old(lot), overtaken, lot);
      GrowsGiven(old(lot), lot, t.res, v);
    }

    /** Takes the parked value out, or makes the park that is still to come bounce. */
    method Unpark(h: nat) returns (r: Option<Value>)
      requires Inv(lot) && UnparkerAt(lot, h, UnparkIdle)
      modifies this
      ensures Inv(lot) && Grows(old(lot), lot) && h !in lot.unparkers
      ensures Answers(lot, old(lot).unparkers[h].t, r)
    {
      hide Inv, Grows;
      UnparkerInv(lot, h);
      var t := lot.unparkers[h].t;
      Do(DoUnparkExchange(h));
      if h !in lot.unparkers {
        return None;
      }
      ghost var claimed := lot;
      r := TakeOut(h);
      GrowsOn(old(lot), claimed, lot);
    }

    method TakeOut(h: nat) returns (r: Option<Value>)
      requires Inv(lot) && UnparkerAt(lot, h, Claiming)
      modifies this
      ensures Inv(lot) && Grows(old(lot), lot) && h !in lot.unparkers
      ensures r.Some? && Answers(lot, old(lot).unparkers[h].t, r)
    {
      hide Inv, Grows;
      var t := lot.unparkers[h].t;
      Overtaken(OwnUnparker(h));
      ghost var overtaken := lot;
      Do(DoUnparkRead(h));
      GrowsOn(old(lot), overtaken, lot);
      UnparkerInv(lot, h);
      r := Some(lot.unparkers[h].phase.v);
      overtaken := lot;
      Overtaken(OwnUnparker(h));
      GrowsOn(old(lot), overtaken, lot);
      GrowsGiven(overtaken, lot, t.res, r.value);
      overtaken := lot;
      Do(DoUnparkFree(h));
      GrowsOn(old(lot), overtaken, lot);
    }

    /** A clone fires: the first takes the unpark right, any later one does nothing at all. */
    method Wake(w: nat, n: nat) returns (r: Option<Value>)
      requires Inv(lot) && w in lot.wakers && n !in lot.unparkers
      modifies this
      ensures Inv(lot) && Grows(old(lot), lot) && n !in lot.unparkers
      ensures old(lot).wakers[w].None? ==> r.None? && lot == old(lot) && others == old(others)
      ensures old(lot).wakers[w].Some? ==> Answers(lot, old(lot).wakers[w].value, r)
    {
      hide Inv, Grows, Answers;
      Do(DoWake(w, n));
      if n !in lot.unparkers {
        assert old(lot).wakers[w := None] == old(lot).wakers;
        return None;
      }
      ghost var fired := lot;
      Overtaken(OwnUnparker(n));
      GrowsOn(old(lot), fired, lot);
      fired := lot;
      r := Unpark(n);
      GrowsOn(old(lot), fired, lot);
    }

    // ----------------------------------------------------------- reserving

    ghost predicate Scanning(h: nat, n: nat, mayAppend: bool, index: nat)
      reads this
    {
      && h in lot.scans && n !in lot.reservations
      && lot.scans[h].Scanner? && lot.scans[h] == Scanner(lot.scans[h].segment, index, false, mayAppend)
    }

    /** One slot: claimed if it is free and nobody else is faster. */
    method ClaimSlot(h: nat, n: nat, mayAppend: bool, i: nat) returns (claimed: bool)
      requires Inv(lot) && Scanning(h, n, mayAppend, i) && i < SEGMENT_SLOTS
      modifies this
      ensures Inv(lot)
      ensures if old(others) == [] then others == [] else |others| < |old(others)|
      ensures claimed ==> h !in lot.scans && n in lot.reservations
      ensures !claimed ==> Scanning(h, n, mayAppend, i + 1) && lot.scans[h].segment == old(lot).scans[h].segment
      ensures old(others) == [] ==> lot.published == old(lot).published
      ensures old(others) == [] ==> (claimed <==> At(old(lot), SlotId(old(lot).scans[h].segment, i)).state == Empty)
      ensures old(others) == [] && !claimed ==> lot == old(lot).(scans := lot.scans)
    {
      hide Inv, Grows;
      Overtaken(OwnScan(h, n));
      Do(DoScanLoad(h));
      if !lot.scans[h].sawEmpty {
        return false;
      }
      Overtaken(OwnScan(h, n));
      Do(DoScanClaim(h, n));
      claimed := h !in lot.scans;
    }

    /** The slots of one segment in order. */
    method Claim(h: nat, n: nat, mayAppend: bool) returns (claimed: bool)
      requires Inv(lot) && Scanning(h, n, mayAppend, 0)
      modifies this
      ensures Inv(lot)
      ensures if old(others) == [] then others == [] else |others| < |old(others)|
      ensures claimed ==> h !in lot.scans && n in lot.reservations
      ensures !claimed ==> Scanning(h, n, mayAppend, SEGMENT_SLOTS) && lot.scans[h].segment == old(lot).scans[h].segment
      ensures old(others) == [] ==> lot.published == old(lot).published
      ensures old(others) == [] && claimed ==> !FullTo(old(lot), old(lot).scans[h].segment, SEGMENT_SLOTS)
      ensures old(others) == [] && !claimed ==>
        FullTo(lot, lot.scans[h].segment, SEGMENT_SLOTS) && lot == old(lot).(scans := lot.scans)
    {
      hide Inv, Grows;
      ghost var g := lot.scans[h].segment;
      ScanInv(lot, h);
      for i := 0 to SEGMENT_SLOTS
        invariant Inv(lot) && Scanning(h, n, mayAppend, i) && lot.scans[h].segment == g
        invariant if old(others) == [] then others == [] else if i == 0 then others == old(others) else |others| < |old(others)|
        invariant old(others) == [] ==> FullTo(lot, g, i) && lot == old(lot).(scans := lot.scans)
      {
        claimed := ClaimSlot(h, n, mayAppend, i);
        if claimed {
          return;
        }
      }
      return false;
    }

    /** Moves on to the next segment, appended if need be and allowed; whoever publishes first wins. */
    method NextSegment(h: nat, n: nat, mayAppend: bool) returns (more: bool)
      requires Inv(lot) && Scanning(h, n, mayAppend, SEGMENT_SLOTS)
      modifies this
      ensures Inv(lot)
      ensures if old(others) == [] then others == [] else |others| < |old(others)|
      ensures !more ==> h !in lot.scans && n !in lot.reservations
      ensures more ==> Scanning(h, n, mayAppend, 0)
      ensures mayAppend ==> more
      ensures old(others) == [] ==> WentOn(old(lot), lot, h, more, mayAppend)
    {
      hide Inv, Grows, SegmentSlots;
      Overtaken(OwnScan(h, n));
      Do(DoScanAdvance(h));
      if h !in lot.scans {
        return false;
      }
      if lot.scans[h].Appender? {
        Overtaken(OwnScan(h, n));
        Do(DoAppend(h));
      }
      return true;
    }

    /** `reserve`, or `try_reserve` when it may not append: it always ends, with a claimed slot unless it
    may not append; and if nobody interferes it appends, or gives up, exactly when no slot is free. */
    method Reserve(h: nat, n: nat, mayAppend: bool) returns (r: bool)
      requires Inv(lot) && h !in lot.scans && n !in lot.reservations
      modifies this
      ensures Inv(lot) && h !in lot.scans
      ensures r <==> n in lot.reservations
      ensures mayAppend ==> r
      ensures old(others) == [] ==> (lot.published == old(lot).published <==> AnyFree(old(lot)) || !mayAppend)
      ensures old(others) == [] && !mayAppend ==> (r <==> AnyFree(old(lot)))
    {
      hide Inv, Grows, WentOn, FullTo, FullBefore, Appended, AnyFree;
      Do(DoStartScan(h, mayAppend));
      ghost var was := lot;
      ScanInv(lot, h);
      NothingBefore(lot);
      while true
        invariant Inv(lot) && Scanning(h, n, mayAppend, 0) && lot.scans[h].segment < lot.segmentCount
        invariant |others| <= |old(others)| && (old(others) == [] ==> Undisturbed(was, lot, h, mayAppend))
        decreases |others|, Ahead(lot, h)
      {
        ghost var head, quiet := lot, others == [];
        r := Claim(h, n, mayAppend);
        if r {
          if old(others) == [] {
            FoundFree(was, head, h, mayAppend);
            SameFree(old(lot), was);
          }
          return;
        }
        ghost var full := lot;
        ScanInv(lot, h);
        r := NextSegment(h, n, mayAppend);
        if quiet {
          Progress(head, full, lot, h, r, mayAppend);
        }
        if old(others) == [] {
          StaysUndisturbed(was, head, full, lot, h, r, mayAppend);
          SameFree(old(lot), was);
        }
        if !r {
          return;
        }
        ScanInv(lot, h);
      }
    }
  }

  ghost predicate FullBefore(s: Lot, g: nat) {
    forall id :: id in s.slots && id.segment < g ==> s.slots[id].state != Empty
  }

  ghost predicate AnyFree(s: Lot) {
    exists id :: id in s.slots && s.slots[id].state == Empty
  }

  /** Only a fresh segment `g` was added, and nothing was free without it. */
  ghost predicate Appended(was: Lot, s: Lot, g: nat) {
    !AnyFree(was) && SlotId(g, 0) in s.slots && s.slots[SlotId(g, 0)].state == Empty && g in s.published && g !in was.published
  }

  /** Where the scan stands if nobody has interfered: every older segment is full, and the lot is as it
  was found or, every slot being taken, longer by one fresh segment. */
  ghost predicate Undisturbed(was: Lot, s: Lot, h: nat, mayAppend: bool) {
    && h in s.scans && FullBefore(s, s.scans[h].segment)
    && (s == was.(scans := s.scans) || (mayAppend && Appended(was, s, s.scans[h].segment)))
  }

  /** The scan of a full segment went on to the next one, to a fresh one, or to its end. */
  ghost predicate WentOn(s: Lot, s': Lot, h: nat, more: bool, mayAppend: bool)
    requires h in s.scans
  {
    var g := s.scans[h].segment;
    && (more <==> g in s.next || mayAppend)
    && (more ==> h in s'.scans)
    && (more && g in s.next ==> s' == s.(scans := s'.scans) && s'.scans[h].segment == s.next[g])
    && (more && g !in s.next ==>
          && s'.scans[h].segment == s.segmentCount && s'.segmentCount == s.segmentCount + 1
          && s'.published == s.published + {s.segmentCount}
          && s'.slots == s.slots + SegmentSlots(s.segmentCount))
    && (!more ==> s'.slots == s.slots && s'.published == s.published)
  }

  lemma NotAppended(was: Lot, s: Lot, h: nat, mayAppend: bool)
    requires Undisturbed(was, s, h, mayAppend) && FullTo(s, s.scans[h].segment, SEGMENT_SLOTS)
    ensures s == was.(scans := s.scans)
  {
  }

  lemma FoundFree(was: Lot, s: Lot, h: nat, mayAppend: bool)
    requires Undisturbed(was, s, h, mayAppend) && !FullTo(s, s.scans[h].segment, SEGMENT_SLOTS)
    ensures s.published == was.published <==> AnyFree(was)
    ensures !mayAppend ==> AnyFree(was)
  {
  }

  lemma FollowNext(s: Lot, s': Lot, h: nat, g: nat)
    requires Inv(s) && g in s.next && FullBefore(s, g) && FullTo(s, g, SEGMENT_SLOTS) && s'.slots == s.slots
    ensures FullBefore(s', s.next[g])
  {
    hide Inv;
    NextInv(s, g);
  }

  lemma NothingFree(s: Lot, g: nat)
    requires Inv(s) && g in s.published && g !in s.next && FullBefore(s, g) && FullTo(s, g, SEGMENT_SLOTS)
    ensures !AnyFree(s)
  {
    hide Inv;
    LastInv(s, g);
  }

  lemma FreshSegment(s: Lot, s': Lot)
    requires Inv(s) && !AnyFree(s) && s'.slots == s.slots + SegmentSlots(s.segmentCount)
    ensures SlotId(s.segmentCount, 0) in s'.slots && s'.slots[SlotId(s.segmentCount, 0)].state == Empty
    ensures FullBefore(s', s.segmentCount) && s.segmentCount !in s.published
  {
    hide ParkSideOk, UnparkSideOk, ValuesOk;
    var w :| InvAt(s, w);
    assert SlotId(s.segmentCount, 0) in SegmentSlots(s.segmentCount);
  }

  lemma NothingBefore(s: Lot)
    ensures FullBefore(s, 0)
  {
  }

  lemma SameFree(s: Lot, was: Lot)
    requires s.slots == was.slots
    ensures AnyFree(s) <==> AnyFree(was)
  {
  }

  /** A round that nobody disturbs leaves the scan undisturbed, or ends it with nothing free. */
  lemma StaysUndisturbed(was: Lot, head: Lot, full: Lot, s: Lot, h: nat, more: bool, mayAppend: bool)
    requires Undisturbed(was, head, h, mayAppend) && Inv(full) && h in full.scans && full.scans[h].segment in full.published
    requires full == head.(scans := full.scans) && full.scans[h].segment == head.scans[h].segment
    requires FullTo(full, full.scans[h].segment, SEGMENT_SLOTS) && WentOn(full, s, h, more, mayAppend)
    ensures if more then Undisturbed(was, s, h, mayAppend) else !AnyFree(was) && s.published == was.published
  {
    hide Inv, SegmentSlots;
    var g := full.scans[h].segment;
    NotAppended(was, head, h, mayAppend);
    if g in full.next {
      FollowNext(full, s, h, g);
    } else {
      NothingFree(full, g);
      SameFree(full, was);
      if more {
        FreshSegment(full, s);
      }
    }
  }

  /** How far the scan can still go before it finds a free slot. */
  ghost function Ahead(s: Lot, h: nat): nat
    requires h in s.scans && s.scans[h].segment < s.segmentCount
  {
    var first := SlotId(s.scans[h].segment, 0);
    2 * (s.segmentCount - s.scans[h].segment) - if first in s.slots && s.slots[first].state == Empty then 1 else 0
  }

  lemma Progress(head: Lot, full: Lot, s: Lot, h: nat, more: bool, mayAppend: bool)
    requires Inv(full) && h in head.scans && head.scans[h].segment < head.segmentCount && h in full.scans
    requires full == head.(scans := full.scans) && full.scans[h].segment == head.scans[h].segment
    requires FullTo(full, full.scans[h].segment, SEGMENT_SLOTS) && WentOn(full, s, h, more, mayAppend)
    ensures more ==> s.scans[h].segment < s.segmentCount ==> Ahead(s, h) < Ahead(head, h)
  {
    hide Inv;
    var g := full.scans[h].segment;
    if more && g in full.next {
      NextInv(full, g);
    } else if more {
      assert SlotId(full.segmentCount, 0) in SegmentSlots(full.segmentCount);
    }
  }

  ghost predicate GivenIs(s: Lot, r: nat, v: Value) {
    r in s.given && s.given[r] == v
  }

  ghost predicate JustReturned(s: Lot, r: Return) {
    |s.log| > 0 && s.log[|s.log| - 1] == r
  }

  /** What an unpark with the ticket `t` may answer. */
  ghost predicate Answers(s: Lot, t: Ticket, r: Option<Value>) {
    match r
    case None => Owns(s.slots, t) && s.slots[t.slot].state == Unparked
    case Some(x) => GivenIs(s, t.res, x) && JustReturned(s, Return(t.res, x, false))
  }

  /** No slot of segment `g` before index `i` is free. */
  ghost predicate FullTo(s: Lot, g: nat, i: nat) {
    forall k :: 0 <= k < i && SlotId(g, k) in s.slots ==> s.slots[SlotId(g, k)].state != Empty
  }

  lemma GrowsOn(a: Lot, b: Lot, c: Lot)
    requires Grows(a, b) && Grows(b, c)
    ensures Grows(a, c)
  {
  }

  lemma GrowsGiven(a: Lot, b: Lot, r: nat, v: Value)
    requires Grows(a, b) && GivenIs(a, r, v)
    ensures GivenIs(b, r, v)
  {
  }
}
