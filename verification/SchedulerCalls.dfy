/** `reschedule` and `block_current` as code of one CPU, with every other CPU, waker and creator at work
between any two of their steps.

`others` is what those do: at each point where the call can be overtaken, the next list of steps is
taken off it, and every step that is possible and leaves this CPU's own scheduler alone is done. */
module SchedulerCalls {
  import opened Basics
  import opened Scheduler
  import opened SchedulerProof

  /** The fields of the CPU's own `Scheduler` and the locals of its `reschedule` call. */
  predicate Kept(s: Machine, s': Machine, c: Cpu) {
    && SameAt(s.current, s'.current, c) && SameAt(s.idle, s'.idle, c) && SameAt(s.idleTid, s'.idleTid, c)
    && SameAt(s.zombie, s'.zombie, c) && SameAt(s.phase, s'.phase, c)
    && SameAt(s.picked, s'.picked, c) && SameAt(s.leaving, s'.leaving, c)
  }

  // ------------------------------------------------------------- what the other CPUs cannot change

  lemma CurrentsApart(s: Machine, c: Cpu, d: Cpu)
    requires Inv(s) && c in s.current && d in s.current && c != d
    ensures s.current[c] != s.current[d]
  {
    hide PlacesOk, PhasesOk, SavedOk, TicketsOk, IdleOk;
    var w :| InvAt(s, w);
    HeldAt(PlacesOf(s), w.place, OnCpu(c), s.current[c]);
    HeldAt(PlacesOf(s), w.place, OnCpu(d), s.current[d]);
  }

  /** Only its own CPU puts a ticket in a running task's cell or takes it out. */
  lemma TicketStays(s: Machine, step: Step, c: Cpu)
    requires Inv(s) && Enabled(s, step) && Kept(s, Apply(s, step), c)
    requires c in s.current && c in s.phase && s.phase[c] != Running
    ensures SameAt(s.tickets, Apply(s, step).tickets, s.current[c])
  {
    hide Inv;
    match step
    case DoBoot(_, _) =>
    case DoCreate(_, _) =>
    case DoSetIdleTask(_, _) =>
    case DoEnqueueHand(_) =>
    case DoDropCorpse =>
    case DoSetTerminate(_, _) =>
    case DoBlock(d) => CurrentsApart(s, c, d);
    case DoWake(_, _) =>
    case DoEnter(_) =>
    case DoRoute(_) =>
    case DoPick(_) =>
    case DoPickIdle(_) =>
    case DoLeave(d) =>
      if d != c {
        CurrentsApart(s, c, d);
      }
    case DoSwitch(_) =>
  }

  lemma StepKeepsInv(s: Machine, step: Step)
    requires Inv(s) && Enabled(s, step)
    ensures Inv(Apply(s, step))
  {
    hide InvAt, Enabled, Apply;
    var w :| InvAt(s, w);
    StepInv(s, w, step);
  }

  // ------------------------------------------------------------- what the invariant says of one CPU

  lemma IdleTargetReady(s: Machine, c: Cpu)
    requires Inv(s) && InPhase(s, c, NoneQueued) && c in s.idleTid && MustLeave(s, c)
    ensures PickIdle(s, c).phase[c] == HasNext
  {
    hide InvAt;
    var w :| InvAt(s, w);
    InvIdle(s, w);
  }

  lemma PhaseLocals(s: Machine, c: Cpu)
    requires Inv(s) && c in s.phase
    ensures c in s.picked <==> s.phase[c] == HasNext
    ensures c in s.leaving <==> s.phase[c] == HasOld
  {
    hide PlacesOk, SavedOk, TicketsOk, IdleOk;
    var w :| InvAt(s, w);
  }

  lemma NextIsAnother(s: Machine, c: Cpu)
    requires Inv(s) && c in s.current && c in s.picked
    ensures s.picked[c] != s.current[c]
  {
    hide PlacesOk, PhasesOk, SavedOk, TicketsOk, IdleOk;
    var w :| InvAt(s, w);
    HeldAt(PlacesOf(s), w.place, OnCpu(c), s.current[c]);
    HeldAt(PlacesOf(s), w.place, IsPicked(c), s.picked[c]);
  }

  lemma TakenForGood(s: Machine, c: Cpu)
    requires Inv(s) && c in s.leaving
    ensures s.leaving[c].t !in s.tickets
  {
    hide PhasesOk, SavedOk, IdleOk, PlacesOk;
    var w :| InvAt(s, w);
    HeldAt(PlacesOf(s), w.place, IsLeaving(c), s.leaving[c].t);
  }

  /** The same task is still on the CPU, with the same ticket or none, and so is the CPU's idle task. */
  ghost predicate Resides(s: Machine, s': Machine, c: Cpu)
    requires c in s.current
  {
    && SameAt(s.current, s'.current, c) && SameAt(s.idleTid, s'.idleTid, c)
    && SameAt(s.tickets, s'.tickets, s.current[c])
  }

  /** The disposal matches the ticket the task had, if any. */
  predicate DisposalFits(tickets: map<Tid, Res>, out: Outgoing) {
    if out.t in tickets then out.disposal == Park(tickets[out.t]) else !out.disposal.Park?
  }

  class Kernel {
    var s: Machine
    var others: seq<seq<Step>>

    constructor (interference: seq<seq<Step>>)
      ensures Inv(s) && s == Initial() && others == interference
    {
      s, others := Initial(), interference;
      InitialInv();
    }

    method Do(step: Step)
      requires Inv(s) && Enabled(s, step)
      modifies this`s
      ensures Inv(s) && s == Apply(old(s), step)
    {
      hide Inv, Enabled, Apply;
      StepKeepsInv(s, step);
      s := Apply(s, step);
    }

    /** Everybody else, while CPU `c` is between two steps of `reschedule`. */
    method Overtaken(c: Cpu)
      requires Inv(s) && c in s.current && c in s.phase && s.phase[c] != Running
      modifies this
      ensures Inv(s) && Kept(old(s), s, c) && c in s.current && SameAt(old(s).tickets, s.tickets, s.current[c])
    {
      hide Inv, Enabled, Apply;
      if others == [] {
        return;
      }
      var steps := others[0];
      others := others[1..];
      for i := 0 to |steps|
        invariant Inv(s) && Kept(old(s), s, c) && c in s.current && SameAt(old(s).tickets, s.tickets, s.current[c])
      {
        if Enabled(s, steps[i]) && Kept(s, Apply(s, steps[i]), c) {
          TicketStays(s, steps[i], c);
          Do(steps[i]);
        }
      }
    }

    /** The zombie is routed and a target looked for; true when there is one. */
    method FindTarget(c: Cpu) returns (found: bool)
      requires Inv(s) && InPhase(s, c, Running)
      modifies this
      ensures Inv(s) && InPhase(s, c, if found then HasNext else Running) && Resides(old(s), s, c)
      ensures !found ==> !MustLeave(s, c) || c !in s.idleTid
    {
      hide Inv, TargetOf;
      Do(DoEnter(c));
      Overtaken(c);
      Do(DoRoute(c));
      Overtaken(c);
      found := NextTask(c);
    }

    method NextTask(c: Cpu) returns (found: bool)
      requires Inv(s) && InPhase(s, c, Routed)
      modifies this
      ensures Inv(s) && InPhase(s, c, if found then HasNext else Running) && Resides(old(s), s, c)
      ensures !found ==> !MustLeave(s, c) || c !in s.idleTid
    {
      hide Inv;
      Do(DoPick(c));
      if s.phase[c] == HasNext {
        return true;
      }
      Overtaken(c);
      if c in s.idleTid && MustLeave(s, c) {
        IdleTargetReady(s, c);
      }
      Do(DoPickIdle(c));
      found := s.phase[c] == HasNext;
    }

    /** The tasks change places and the old one becomes the zombie. */
    method SwitchTo(c: Cpu)
      requires Inv(s) && InPhase(s, c, HasNext)
      modifies this
      ensures Inv(s) && InPhase(s, c, Running) && s.current[c] != old(s).current[c]
      ensures c in s.zombie && s.zombie[c].t == old(s).current[c] && s.zombie[c].t !in s.tickets
      ensures SameAt(old(s).idleTid, s.idleTid, c)
      ensures DisposalFits(old(s).tickets, s.zombie[c])
    {
      hide Inv;
      PhaseLocals(s, c);
      Overtaken(c);
      PhaseLocals(s, c);
      NextIsAnother(s, c);
      Do(DoLeave(c));
      Overtaken(c);
      PhaseLocals(s, c);
      TakenForGood(s, c);
      Do(DoSwitch(c));
    }

    /** With the idle task installed, a call that returns at once leaves no ticket behind; one that
    switches has taken the ticket and carries exactly that park to the next routing. */
    method Reschedule(c: Cpu) returns (switched: bool)
      requires Inv(s) && InPhase(s, c, Running)
      modifies this
      ensures Inv(s) && InPhase(s, c, Running)
      ensures !switched ==> s.current[c] == old(s).current[c] && (c in s.idleTid ==> !MustLeave(s, c))
      ensures switched ==> s.current[c] != old(s).current[c]
      ensures switched ==> c in s.zombie && s.zombie[c].t == old(s).current[c] && s.zombie[c].t !in s.tickets
      ensures switched ==> DisposalFits(old(s).tickets, s.zombie[c])
      ensures c in old(s).idleTid && old(s).current[c] in old(s).tickets ==> switched
    {
      hide Inv, Enabled, Apply;
      switched := FindTarget(c);
      if switched {
        SwitchTo(c);
      }
    }

    /** The task reserves a slot, leaves the park right in its cell and gives up the CPU, with
    interrupts off in between.  Once the idle task is installed it always gets off the CPU, and its
    next routing parks it in the slot it reserved. */
    method BlockCurrent(c: Cpu) returns (switched: bool)
      requires Inv(s) && Enabled(s, DoBlock(c))
      modifies this
      ensures Inv(s) && InPhase(s, c, Running)
      ensures c in old(s).idleTid ==>
        switched && c in s.zombie && s.zombie[c] == Outgoing(old(s).current[c], Park(old(s).nextRes)) && s.zombie[c].t !in s.tickets
    {
      hide Inv;
      Do(DoBlock(c));
      switched := Reschedule(c);
    }
  }
}
