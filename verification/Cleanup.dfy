/** The cleanup task and the CPUs that hand it dead tasks.

Any number of CPUs push a corpse and then take the wake ticket from the shared cell; the one
cleanup task drains the queue, offers a new ticket, looks once more and parks.  Every queue
operation, cell operation and slot exchange is one step.
*/
module Cleanup {
  import opened Basics
  import opened ParkSlot

  type Corpse = nat
  type Res = nat

  /** What the lot holds for the one task that parks here. */
  const CLEANUP_TASK: nat := 0

  /** The cleanup task's program counter. */
  datatype Cleaner =
    | Draining
    | Reserving          // found the queue empty
    | Offering(r: Res)   // reservation made, not yet stored in the cell
    | Looking(r: Res)    // second look at the queue
    | Retracting(r: Res) // found a corpse: take the ticket back
    | Waking(r: Res)     // about to fire the ticket it took back
    | Blocking(r: Res)
    | Parked(r: Res)

  /** An enqueuing CPU, from its push on. */
  datatype Enqueuer = Pushed | Holding(r: Res)

  datatype System = System(
    queue: seq<Corpse>,
    cell: Option<Res>,
    slots: map<Res, Slot>,
    cleaner: Cleaner,
    enqueuers: map<nat, Enqueuer>,
    pushed: seq<Corpse>,   // history: every corpse ever enqueued
    dropped: seq<Corpse>)  // history: every corpse dropped

  const BOOT := System([], None, map[], Draining, map[], [], [])

  datatype Step =
    | DoPush(n: nat, x: Corpse)
    | DoTake(n: nat)
    | DoUnpark(n: nat)
    | DoDrain
    | DoFindEmpty
    | DoReserve(r: Res)
    | DoOffer
    | DoLook
    | DoRetract
    | DoWakeSelf
    | DoPark

  predicate Enabled(s: System, e: Step) {
    match e
    case DoPush(n, _) => n !in s.enqueuers
    case DoTake(n) => n in s.enqueuers && s.enqueuers[n] == Pushed
    case DoUnpark(n) =>
      && n in s.enqueuers && s.enqueuers[n].Holding? && s.enqueuers[n].r in s.slots
      && (s.slots[s.enqueuers[n].r] == Reserved || s.slots[s.enqueuers[n].r].Occupied?)
    case DoDrain => s.cleaner == Draining && s.queue != []
    case DoFindEmpty => s.cleaner == Draining && s.queue == []
    case DoReserve(r) => s.cleaner == Reserving && r !in s.slots
    case DoOffer => s.cleaner.Offering?
    case DoLook => s.cleaner.Looking?
    case DoRetract => s.cleaner.Retracting?
    case DoWakeSelf =>
      s.cleaner.Waking? && s.cleaner.r in s.slots && s.slots[s.cleaner.r] == Reserved
    case DoPark =>
      && s.cleaner.Blocking? && s.cleaner.r in s.slots
      && (s.slots[s.cleaner.r] == Reserved || s.slots[s.cleaner.r] == Unparked)
  }

  function Drop(s: System): System
    requires s.queue != []
  {
    s.(queue := s.queue[1..], dropped := s.dropped + [s.queue[0]])
  }

  /** The unpark exchange of ticket `r`: an occupied slot gives the cleanup task back to the run queue. */
  function Unpark(s: System, r: Res): System
    requires r in s.slots
  {
    if s.slots[r].Occupied?
    then s.(slots := s.slots[r := Done], cleaner := Draining)
    else s.(slots := s.slots[r := Unparked])
  }

  function Take(s: System, n: nat): System {
    match s.cell
    case None => s.(enqueuers := s.enqueuers - {n})
    case Some(r) => s.(cell := None, enqueuers := s.enqueuers[n := Holding(r)])
  }

  /** An occupied cell rejects the offer and the reservation is released; otherwise go on to look again. */
  function Offer(s: System): System
    requires s.cleaner.Offering?
  {
    if s.cell.Some? then s.(slots := s.slots[s.cleaner.r := Done], cleaner := Draining)
    else s.(cell := Some(s.cleaner.r), cleaner := Looking(s.cleaner.r))
  }

  function Look(s: System): System
    requires s.cleaner.Looking?
  {
    if s.queue == [] then s.(cleaner := Blocking(s.cleaner.r))
    else Drop(s).(cleaner := Retracting(s.cleaner.r))
  }

  function Retract(s: System): System
    requires s.cleaner.Retracting?
  {
    match s.cell
    case None => s.(cleaner := Blocking(s.cleaner.r))
    case Some(_) => s.(cell := None, cleaner := Waking(s.cleaner.r))
  }

  function Park(s: System): System
    requires s.cleaner.Blocking? && s.cleaner.r in s.slots
  {
    var r := s.cleaner.r;
    if s.slots[r] == Reserved then s.(slots := s.slots[r := Occupied(CLEANUP_TASK)], cleaner := Parked(r))
    else s.(slots := s.slots[r := Done], cleaner := Draining)
  }

  function Apply(s: System, e: Step): System
    requires Enabled(s, e)
  {
    match e
    case DoPush(n, x) => s.(queue := s.queue + [x], pushed := s.pushed + [x], enqueuers := s.enqueuers[n := Pushed])
    case DoTake(n) => Take(s, n)
    case DoUnpark(n) => Unpark(s, s.enqueuers[n].r).(enqueuers := s.enqueuers - {n})
    case DoDrain => Drop(s)
    case DoFindEmpty => s.(cleaner := Reserving)
    case DoReserve(r) => s.(slots := s.slots[r := Reserved], cleaner := Offering(r))
    case DoOffer => Offer(s)
    case DoLook => Look(s)
    case DoRetract => Retract(s)
    case DoWakeSelf => Unpark(s, s.cleaner.r).(cleaner := Blocking(s.cleaner.r))
    case DoPark => Park(s)
  }

  ghost predicate Next(s: System, s': System) {
    exists e :: Enabled(s, e) && Apply(s, e) == s'
  }

  ghost predicate IsRun(run: seq<System>) {
    && |run| > 0 && run[0] == BOOT
    && forall i :: 0 <= i < |run| - 1 ==> Next(run[i], run[i + 1])
  }

  // ------------------------------------------------------------- the invariant

  ghost predicate SomePushed(s: System) {
    exists n :: n in s.enqueuers && s.enqueuers[n] == Pushed
  }

  ghost predicate SomeHolds(s: System, r: Res) {
    exists n :: n in s.enqueuers && s.enqueuers[n] == Holding(r)
  }

  /** The cleanup task has stored its ticket and not come back from its park. */
  predicate Waiting(c: Cleaner) {
    c.Looking? || c.Retracting? || c.Waking? || c.Blocking? || c.Parked?
  }

  /** The ticket of the reservation the cleanup task is waiting on is in exactly one place: the
  cell, one enqueuer's hand, the cleanup task's own hand, or it has been used on the slot. */
  ghost predicate TicketOk(s: System) {
    && (s.cell.Some? ==> Waiting(s.cleaner) && s.cell.value == s.cleaner.r)
    && (forall n :: n in s.enqueuers && s.enqueuers[n].Holding? ==>
          && Waiting(s.cleaner) && !s.cleaner.Waking? && s.enqueuers[n].r == s.cleaner.r && s.cell.None?
          && s.cleaner.r in s.slots && (s.slots[s.cleaner.r] == Reserved || s.slots[s.cleaner.r].Occupied?))
    && (forall n, m :: n in s.enqueuers && m in s.enqueuers && s.enqueuers[n].Holding? && s.enqueuers[m].Holding? ==> n == m)
    && (Waiting(s.cleaner) || s.cleaner.Offering? ==> s.cleaner.r in s.slots)
    && (s.cleaner.Waking? || s.cleaner.Offering? ==> s.slots[s.cleaner.r] == Reserved)
    && (s.cleaner.Parked? ==> s.slots[s.cleaner.r].Occupied?)
    && (s.cleaner.Looking? || s.cleaner.Retracting? || s.cleaner.Blocking? ==>
          s.slots[s.cleaner.r] == Reserved || s.slots[s.cleaner.r] == Unparked)
    && (s.cell.Some? ==> s.slots[s.cell.value] != Unparked)
    && (s.cleaner.Waking? ==> s.cell.None?)
    && (Waiting(s.cleaner) && !s.cleaner.Waking? && s.cell.None? ==>
          s.slots[s.cleaner.r] == Unparked || SomeHolds(s, s.cleaner.r))
  }

  /** About to park, or parked, with the ticket in the cell: nothing to clean, or a waker coming. */
  ghost predicate WakeOk(s: System) {
    (s.cleaner.Blocking? || s.cleaner.Parked?) && s.cell.Some? ==> s.queue == [] || SomePushed(s)
  }

  ghost predicate Inv(s: System) {
    TicketOk(s) && WakeOk(s) && s.pushed == s.dropped + s.queue
  }

  lemma PushTicket(s: System, n: nat, x: Corpse)
    requires TicketOk(s) && Enabled(s, DoPush(n, x))
    ensures TicketOk(Apply(s, DoPush(n, x)))
  {
    var s' := Apply(s, DoPush(n, x));
    assert forall m :: m in s.enqueuers ==> s'.enqueuers[m] == s.enqueuers[m];
  }

  lemma TakeTicket(s: System, n: nat)
    requires TicketOk(s) && Enabled(s, DoTake(n))
    ensures TicketOk(Apply(s, DoTake(n)))
  {
    var s' := Take(s, n);
    if s.cell.Some? {
      assert s'.enqueuers[n] == Holding(s.cleaner.r);
    } else {
      assert forall m :: m in s.enqueuers && m != n ==> s'.enqueuers[m] == s.enqueuers[m];
    }
  }

  lemma StepTicket(s: System, e: Step)
    requires TicketOk(s) && Enabled(s, e)
    ensures TicketOk(Apply(s, e))
  {
    match e
    case DoPush(n, x) => PushTicket(s, n, x);
    case DoTake(n) => TakeTicket(s, n);
    case _ =>
  }

  lemma StepWake(s: System, e: Step)
    requires TicketOk(s) && WakeOk(s) && Enabled(s, e)
    ensures WakeOk(Apply(s, e))
  {
    var s' := Apply(s, e);
    match e
    case DoPush(n, x) => assert s'.enqueuers[n] == Pushed;
    case _ =>
  }

  lemma StepInv(s: System, e: Step)
    requires Inv(s) && Enabled(s, e)
    ensures Inv(Apply(s, e))
  {
    StepTicket(s, e);
    StepWake(s, e);
    assert s.queue != [] ==> s.queue == [s.queue[0]] + s.queue[1..];
    assert s.queue == s.queue + [];
  }

  lemma {:induction false} RunInv(run: seq<System>, i: nat)
    requires IsRun(run) && i < |run|
    ensures Inv(run[i])
  {
    if i > 0 {
      RunInv(run, i - 1);
      assert Next(run[i - 1], run[i - 1 + 1]);
      var e :| Enabled(run[i - 1], e) && Apply(run[i - 1], e) == run[i];
      StepInv(run[i - 1], e);
    }
  }

  // ------------------------------------------------------------- what the protocol promises

  /** Whenever the cleanup task is parked, either a waker is about to fire its ticket, or the
  ticket is in the cell and the queue is empty or an enqueuer is between its push and its take. */
  lemma RunNoStrandedCorpse(run: seq<System>, i: nat)
    requires IsRun(run) && i < |run| && run[i].cleaner.Parked?
    ensures run[i].cell == Some(run[i].cleaner.r) || SomeHolds(run[i], run[i].cleaner.r)
    ensures run[i].cell.Some? ==> run[i].queue == [] || SomePushed(run[i])
  {
    RunInv(run, i);
  }

  /** With no enqueuer under way a parked cleanup task has dropped every corpse, once and in order. */
  lemma RunAllDropped(run: seq<System>, i: nat)
    requires IsRun(run) && i < |run| && run[i].cleaner.Parked? && run[i].enqueuers == map[]
    ensures run[i].dropped == run[i].pushed
  {
    RunInv(run, i);
    assert run[i].queue == [];
  }

  lemma RunFifo(run: seq<System>, i: nat)
    requires IsRun(run) && i < |run|
    ensures run[i].pushed == run[i].dropped + run[i].queue
  {
    RunInv(run, i);
  }

  /** The cell never rejects the cleanup task's offer, and every exchange finds the slot it expects. */
  lemma RunOffersAccepted(run: seq<System>, i: nat)
    requires IsRun(run) && i < |run|
    ensures run[i].cleaner.Offering? ==> run[i].cell.None?
    ensures run[i].cleaner.Blocking? ==> Enabled(run[i], DoPark)
    ensures run[i].cleaner.Waking? ==> Enabled(run[i], DoWakeSelf)
    ensures forall n :: n in run[i].enqueuers && run[i].enqueuers[n].Holding? ==> Enabled(run[i], DoUnpark(n))
  {
    RunInv(run, i);
  }

  /** Every slot goes through parks, unparks and releases only. */
  lemma RunSlots(run: seq<System>, i: nat, r: Res)
    requires IsRun(run) && i + 1 < |run| && r in run[i].slots
    ensures r in run[i + 1].slots && Moves(run[i].slots[r], run[i + 1].slots[r])
  {
    RunInv(run, i);
    assert Next(run[i], run[i + 1]);
  }
}
