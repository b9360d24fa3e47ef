/** `wake_interruptible`, `retire_task` and one round of `park_current_task` as code, with every other
task, generator, timer sweep and reaper at work between any two of their steps.

`others` is what those do: at each point where the call can be overtaken, the next list of steps is
taken off it, and every step that is possible and leaves alone what only the call itself can act on
is done. */
module ProcessWaitsCalls {
  import opened Basics
  import opened ParkSlot
  import opened ProcessWaits
  import opened ProcessWaitsProof

  /** The running task with the reservation it is about to make, or a kernel thread. */
  datatype Own = OwnTask(t: Tid, w: Wid) | OwnThread(n: nat)

  function Self(own: Own): Actor {
    match own
    case OwnTask(t, _) => OfTask(t)
    case OwnThread(n) => OfThread(n)
  }

  predicate Kept(s: Process, s': Process, own: Own) {
    && SameAt(s.todo, s'.todo, Self(own)) && SameAt(s.mid, s'.mid, Self(own))
    && match own
       case OwnTask(t, w) =>
         SameAt(s.pc, s'.pc, t) && SameAt(s.deadline, s'.deadline, t) && (w !in s.slots ==> w !in s'.slots)
       case OwnThread(n) => n in s.published <==> n in s'.published
  }

  // ------------------------------------------------------------- what no step undoes

  lemma WaitKeepsFired(s: Process, e: Step)
    requires Enabled(s, e) && OfWait(e)
    ensures Apply(s, e).fired == s.fired
  {
    match e {
      case DoCallWait(_, _) | DoLoopFlag(_) | DoLoopLock(_) | DoLoopCheck(_) | DoReserve(_, _) | DoSleep(_) | DoRegister(_)
         | DoRecheck(_) | DoRecheckFlag(_) | DoRecheckLock(_) | DoEndFire(_) | DoPark(_) | DoClear(_) =>
    }
  }

  lemma ReapKeepsFired(s: Process, e: Step)
    requires Enabled(s, e) && OfReap(e)
    ensures Apply(s, e).fired == s.fired
  {
    match e {
      case DoCallReap(_) | DoClaim(_) | DoResumeStopped(_) | DoTakeOwn(_) | DoCheckLive(_) | DoReapReserve(_, _) | DoArm(_)
         | DoFinishFlag(_) | DoFinishReap(_) =>
    }
  }

  lemma OthersKeepFired(s: Process, e: Step)
    requires Enabled(s, e) && !OfWait(e) && !OfReap(e)
    ensures s.fired <= Apply(s, e).fired
  {
    match e {
      case DoCreate(_) | DoExit(_) | DoRetire(_, _) | DoPublish(_, _) | DoTake(_) | DoConsume(_) | DoExpire(_, _) | DoTick(_)
         | DoFire(_, _) | DoExchange(_) | DoEndBatch(_) =>
    }
  }

  lemma FiredStays(s: Process, e: Step)
    requires Enabled(s, e)
    ensures s.fired <= Apply(s, e).fired
  {
    hide Enabled, Apply, OfWait, OfReap;
    if OfWait(e) {
      WaitKeepsFired(s, e);
    } else if OfReap(e) {
      ReapKeepsFired(s, e);
    } else {
      OthersKeepFired(s, e);
    }
  }

  // ------------------------------------------------------------- what the invariant says of one party

  lemma ExchangeReady(s: Process, a: Actor)
    requires Inv(s) && a in s.mid
    ensures Enabled(s, DoExchange(a))
  {
    hide SlotsOk, KnownOk, CrewsOk, HandOk, WaitsOk;
    var k :| InvAt(s, k);
    ExchangeDefined(s.slots, s.fired, s.mid, k.firer, a);
  }

  lemma ParkReady(s: Process, t: Tid)
    requires Inv(s) && t in s.pc && s.pc[t].WaitBlock?
    ensures Enabled(s, DoPark(t))
  {
    hide FiringOk, KnownOk, CrewsOk, HandOk, WaitsOk;
    var k :| InvAt(s, k);
    hide SlotsOk;
    ParkDefined(s.pc, s.slots, k.owner, t);
  }

  lemma WokenWasParked(s: Process, w: Wid, t: Tid)
    requires Inv(s) && w in s.slots && s.slots[w] == Occupied(t)
    ensures t in s.pc && IsParked(s.pc[t])
  {
    hide FiringOk, KnownOk, CrewsOk, HandOk, WaitsOk;
    var k :| InvAt(s, k);
    hide SlotsOk;
    OccupantParked(s.pc, s.slots, k.owner, w, t);
  }

  lemma NoBatchYet(s: Process, t: Tid)
    requires Inv(s) && t in s.pc && !FiresOwn(s.pc[t])
    ensures OfTask(t) !in s.todo && OfTask(t) !in s.mid
  {
    hide SlotsOk, FiringOk, KnownOk, HandOk, WaitsOk;
    var k :| InvAt(s, k);
  }

  lemma MidHasBatch(s: Process, a: Actor)
    requires Inv(s) && a !in s.todo
    ensures a !in s.mid
  {
    hide SlotsOk, FiringOk, KnownOk, HandOk, WaitsOk;
    var k :| InvAt(s, k);
  }

  lemma DeadlineKnown(s: Process, t: Tid)
    requires Inv(s) && t in s.pc
    ensures t in s.deadline
  {
    hide CoreOk, ListedOk, EventOk, TargetOk, AccountOk;
    var k :| InvAt(s, k);
  }

  /** A waker that was fired has reached its slot, unless whoever swapped its flag is about to. */
  lemma FiredReachesSlot(s: Process, w: Wid, t: Tid)
    requires Inv(s) && w in s.fired && At(s, t, WaitParked(w))
    ensures exists a :: a in s.mid && s.mid[a] == w
  {
    hide KnownOk, CrewsOk, HandOk, WaitsOk;
    var k :| InvAt(s, k);
    assert HasWaker(s.pc[t]) && s.slots[w] == Occupied(t);
    assert s.mid[k.firer[w]] == w;
  }

  lemma ParkedReachable(s: Process, t: Tid, w: Wid)
    requires Inv(s) && At(s, t, WaitParked(w))
    ensures Reg(t, w) in s.registered || OnItsWay(s, w)
  {
    hide InvAt;
    var k :| InvAt(s, k);
    InvWaits(s, k);
  }

  /** How a round of the wait ends. */
  datatype Round = Interrupted | Ready | Asleep | Again

  class Kernel {
    var s: Process
    var others: seq<seq<Step>>

    constructor (interference: seq<seq<Step>>)
      ensures Inv(s) && s == EMPTY && others == interference
    {
      s, others := EMPTY, interference;
      EmptyInv();
    }

    method Do(e: Step)
      requires Inv(s) && Enabled(s, e)
      modifies this`s
      ensures Inv(s) && s == Apply(old(s), e) && old(s).fired <= s.fired
    {
      hide Inv, Enabled, Apply;
      StepInv(s, e);
      FiredStays(s, e);
      s := Apply(s, e);
    }

    method Overtaken(own: Own)
      requires Inv(s)
      modifies this
      ensures Inv(s) && Kept(old(s), s, own) && old(s).fired <= s.fired
    {
      hide Inv, Enabled, Apply;
      if others == [] {
        return;
      }
      var steps := others[0];
      others := others[1..];
      for i := 0 to |steps|
        invariant Inv(s) && Kept(old(s), s, own) && old(s).fired <= s.fired
      {
        if Enabled(s, steps[i]) && Kept(s, Apply(s, steps[i]), own) {
          Do(steps[i]);
        }
      }
    }

    /** `wake`: swap the waker's flag and, if this was the first swap, exchange its slot. */
    method WakeOne(own: Own, w: Wid)
      requires Inv(s) && Self(own) in s.todo && w in s.todo[Self(own)] && Self(own) !in s.mid
      requires own.OwnTask? ==> own.t in s.pc && !IsParked(s.pc[own.t])
      modifies this
      ensures Inv(s) && old(s).fired + {w} <= s.fired && Self(own) !in s.mid
      ensures Self(own) in s.todo && s.todo[Self(own)] == old(s).todo[Self(own)] - {w}
      ensures own.OwnTask? ==> own.t in s.pc && s.pc[own.t] == old(s).pc[own.t]
    {
      hide Inv;
      var a := Self(own);
      Do(DoFire(a, w));
      if a in s.mid {
        Overtaken(own);
        ExchangeReady(s, a);
        if s.slots[s.mid[a]].Occupied? {
          WokenWasParked(s, s.mid[a], s.slots[s.mid[a]].t);
        }
        Do(DoExchange(a));
      }
    }

    /** Wakes every waker of the batch. */
    method WakeAll(own: Own)
      requires Inv(s) && Self(own) in s.todo && Self(own) !in s.mid
      requires own.OwnTask? ==> own.t in s.pc && !IsParked(s.pc[own.t])
      modifies this
      ensures Inv(s) && old(s).fired + old(s).todo[Self(own)] <= s.fired
      ensures Idle(s, Self(own))
      ensures own.OwnTask? ==> own.t in s.pc && s.pc[own.t] == old(s).pc[own.t]
    {
      hide Inv;
      var a := Self(own);
      while s.todo[a] != {}
        invariant Inv(s) && a in s.todo && a !in s.mid && old(s).fired + (old(s).todo[a] - s.todo[a]) <= s.fired
        invariant own.OwnTask? ==> own.t in s.pc && s.pc[own.t] == old(s).pc[own.t]
        decreases s.todo[a]
      {
        ghost var was := s.todo[a];
        Overtaken(own);
        var w :| w in s.todo[a];
        WakeOne(own, w);
        assert s.todo[a] < was;
      }
    }

    /** A generator that has set its event takes the whole list and wakes it: when it is done, every waker
    that was listed has been fired, and no task listed then is still parked on it, unless another thread
    has swapped that waker's flag and is about to exchange its slot. */
    method WakeInterruptible(n: nat)
      requires Inv(s) && Enabled(s, DoTake(n))
      modifies this
      ensures Inv(s) && OfThread(n) !in s.todo
      ensures forall r :: r in old(s).registered ==> r.w in s.fired
      ensures forall r :: r in old(s).registered && At(s, r.t, WaitParked(r.w)) ==> exists a :: a in s.mid && s.mid[a] == r.w
    {
      hide Inv;
      MidHasBatch(s, OfThread(n));
      ghost var listed := s.registered;
      Do(DoTake(n));
      WakeAll(OwnThread(n));
      Do(DoEndBatch(n));
      forall r | r in listed ensures r.w in s.fired {
        assert r.w in Wids(listed);
      }
      forall r | r in listed && At(s, r.t, WaitParked(r.w)) ensures exists a :: a in s.mid && s.mid[a] == r.w {
        FiredReachesSlot(s, r.w, r.t);
      }
    }

    /** The sibling that leaves the reaper alone has fired the reaper's waker when it is done. */
    method RetireTask(t: Tid, n: nat)
      requires Inv(s) && Enabled(s, DoRetire(t, n))
      modifies this
      ensures Inv(s)
      ensures LastSibling(old(s)) ==> old(s).reap.value.waiter.value in s.fired
      ensures !LastSibling(old(s)) ==> s == old(s).(pc := old(s).pc - {t}, live := old(s).live - 1)
    {
      hide Inv;
      MidHasBatch(s, OfThread(n));
      var last := LastSibling(s);
      Do(DoRetire(t, n));
      if last {
        WakeAll(OwnThread(n));
        Do(DoEndBatch(n));
      }
    }

    /** `reap_requested_for` at the top of the loop, then the condition. */
    method SeesReap(t: Tid, w: Wid) returns (seen: bool)
      requires Inv(s) && At(s, t, LoopFlag) && w !in s.slots
      modifies this
      ensures Inv(s) && w !in s.slots
      ensures if seen then At(s, t, User) && Targeted(s.reap, t) else At(s, t, LoopCheck)
    {
      hide Inv;
      Do(DoLoopFlag(t));
      Overtaken(OwnTask(t, w));
      if s.pc[t] == LoopLock {
        Do(DoLoopLock(t));
        if s.pc[t] == User {
          return true;
        }
        Overtaken(OwnTask(t, w));
      }
      return false;
    }

    method FirstLook(t: Tid, w: Wid) returns (r: Round)
      requires Inv(s) && At(s, t, LoopFlag) && w !in s.slots
      modifies this
      ensures Inv(s) && w !in s.slots
      ensures r == Interrupted ==> At(s, t, User) && Targeted(s.reap, t)
      ensures r == Ready ==> At(s, t, User) && t in s.deadline && ShouldWake(s, t)
      ensures r == Again ==> At(s, t, WaitReserve)
      ensures r != Asleep
    {
      hide Inv;
      var seen := SeesReap(t, w);
      if seen {
        return Interrupted;
      }
      DeadlineKnown(s, t);
      Do(DoLoopCheck(t));
      return if s.pc[t] == User then Ready else Again;
    }

    /** The waker is made, armed and listed before the second look. */
    method Prepare(t: Tid, w: Wid)
      requires Inv(s) && At(s, t, WaitReserve) && w !in s.slots
      modifies this
      ensures Inv(s) && At(s, t, Recheck(w))
    {
      hide Inv;
      Overtaken(OwnTask(t, w));
      Do(DoReserve(t, w));
      Overtaken(OwnTask(t, w));
      DeadlineKnown(s, t);
      Do(DoSleep(t));
      Overtaken(OwnTask(t, w));
      Do(DoRegister(t));
    }

    /** The condition and the reap again; what is seen now wakes the task's own waker. */
    method SecondLook(t: Tid, w: Wid)
      requires Inv(s) && At(s, t, Recheck(w))
      modifies this
      ensures Inv(s) && At(s, t, WaitBlock(w))
    {
      hide Inv;
      Overtaken(OwnTask(t, w));
      DeadlineKnown(s, t);
      NoBatchYet(s, t);
      Do(DoRecheck(t));
      if s.pc[t] == RecheckFlag(w) {
        LookForReap(t, w);
      }
      if s.pc[t] == WaitSelf(w) {
        WakeSelf(t, w);
      }
    }

    method LookForReap(t: Tid, w: Wid)
      requires Inv(s) && At(s, t, RecheckFlag(w))
      modifies this
      ensures Inv(s) && (At(s, t, WaitBlock(w)) || (At(s, t, WaitSelf(w)) && OfTask(t) in s.todo && OfTask(t) !in s.mid))
    {
      hide Inv;
      Overtaken(OwnTask(t, w));
      Do(DoRecheckFlag(t));
      if s.pc[t] == RecheckLock(w) {
        Overtaken(OwnTask(t, w));
        NoBatchYet(s, t);
        Do(DoRecheckLock(t));
      }
    }

    method WakeSelf(t: Tid, w: Wid)
      requires Inv(s) && At(s, t, WaitSelf(w)) && OfTask(t) in s.todo && OfTask(t) !in s.mid
      modifies this
      ensures Inv(s) && At(s, t, WaitBlock(w))
    {
      hide Inv;
      WakeAll(OwnTask(t, w));
      Do(DoEndFire(t));
    }

    /** The park, and what comes after it if it bounces. */
    method ParkOrClear(t: Tid, w: Wid) returns (asleep: bool)
      requires Inv(s) && At(s, t, WaitBlock(w))
      modifies this
      ensures Inv(s)
      ensures asleep ==> At(s, t, WaitParked(w))
      ensures !asleep ==> At(s, t, LoopFlag) && forall x :: x in s.registered ==> x.t != t
    {
      hide Inv;
      Overtaken(OwnTask(t, w));
      ParkReady(s, t);
      Do(DoPark(t));
      if s.pc[t] == WaitParked(w) {
        return true;
      }
      Overtaken(OwnTask(t, w));
      Do(DoClear(t));
      return false;
    }

    /** One round of the wait.  It returns to the caller only for a reap or because the condition holds;
    a task that goes to sleep can be reached by the next generator or has its waker on its way. */
    method WaitRound(t: Tid, w: Wid) returns (r: Round)
      requires Inv(s) && At(s, t, LoopFlag) && w !in s.slots
      modifies this
      ensures Inv(s)
      ensures r == Interrupted ==> At(s, t, User) && Targeted(s.reap, t)
      ensures r == Ready ==> At(s, t, User) && t in s.deadline && ShouldWake(s, t)
      ensures r == Asleep ==> At(s, t, WaitParked(w)) && (Reg(t, w) in s.registered || OnItsWay(s, w))
      ensures r == Again ==> At(s, t, LoopFlag) && forall x :: x in s.registered ==> x.t != t
    {
      hide Inv;
      r := FirstLook(t, w);
      if r != Again {
        return;
      }
      Prepare(t, w);
      SecondLook(t, w);
      var asleep := ParkOrClear(t, w);
      if asleep {
        ParkedReachable(s, t, w);
        return Asleep;
      }
    }
  }
}
