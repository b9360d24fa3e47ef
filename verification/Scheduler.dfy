/** Multi-CPU scheduling: the per-CPU `Scheduler` with its zombie slot and idle task, the
global run queue, the cleanup queue and the parking lot, stepped concurrently.

`reschedule` runs as six steps on its CPU (enter, route, pick, pick idle, leave, switch) between
which every other CPU, waker and creator may act. Slots are named by reservation number,
so a reused slot has a new name; a reservation is in `lot` from its creation until its
value left or bounced.
*/
module Scheduler {
  import opened Basics

  type Tid = nat
  type Cpu = nat
  type Res = nat

  datatype Disposal = Enqueue | Park(r: Res) | Terminate

  datatype Outgoing = Outgoing(t: Tid, disposal: Disposal)

  /** Where the CPU is in `reschedule`. */
  datatype Phase = Running | Entered | Routed | NoneQueued | HasNext | HasOld

  datatype LotSlot = Reserved | Unparked | Occupied(t: Tid)

  /** The fields of every CPU's `Scheduler` (`current`, `idle`, `idleTid`, `zombie`), the locals of
  its `reschedule` call (`picked` is `next_task`, `leaving` is `old_task` with its disposal), and
  what all CPUs share. `hands` are tasks held by an owner about to enqueue them. `saved` are the
  tasks whose stored stack pointer is where they must resume. */
  datatype Machine = Machine(
    current: map<Cpu, Tid>,
    idle: map<Cpu, Tid>,
    idleTid: map<Cpu, Tid>,
    zombie: map<Cpu, Outgoing>,
    phase: map<Cpu, Phase>,
    picked: map<Cpu, Tid>,
    leaving: map<Cpu, Outgoing>,
    runQueue: seq<Tid>,
    cleanup: seq<Tid>,
    lot: map<Res, LotSlot>,
    hands: map<nat, Tid>,
    live: set<Tid>,
    tickets: map<Tid, Res>,
    wakeRights: set<Res>,
    nextRes: Res,
    terminating: set<Tid>,
    saved: set<Tid>)

  function Initial(): Machine {
    Machine(map[], map[], map[], map[], map[], map[], map[], [], [], map[], map[], {}, map[], {}, 0, {}, {})
  }

  // ------------------------------------------------------------- coming and going

  /** `create_current`: the context a CPU boots in, whose stack pointer was never stored. */
  function Boot(s: Machine, c: Cpu, t: Tid): Machine {
    s.(current := s.current[c := t], phase := s.phase[c := Running], live := s.live + {t})
  }

  /** `create_new`: a task whose stored stack pointer is its initial one. */
  function Create(s: Machine, h: nat, t: Tid): Machine {
    s.(hands := s.hands[h := t], live := s.live + {t}, saved := s.saved + {t})
  }

  function SetIdleTask(s: Machine, c: Cpu, t: Tid): Machine {
    s.(idle := s.idle[c := t], idleTid := s.idleTid[c := t], live := s.live + {t}, saved := s.saved + {t})
  }

  /** `GlobalTaskQueue::enqueue` by whoever owns the task. */
  function EnqueueHand(s: Machine, h: nat): Machine
    requires h in s.hands
  {
    s.(hands := s.hands - {h}, runQueue := s.runQueue + [s.hands[h]])
  }

  /** The cleanup task drops a corpse, and the task's flag with it. */
  function DropCorpse(s: Machine): Machine
    requires |s.cleanup| > 0
  {
    var t := s.cleanup[0];
    s.(cleanup := s.cleanup[1..], live := s.live - {t}, terminating := s.terminating - {t})
  }

  /** The flag may be set or cleared at any point. */
  function SetTerminate(s: Machine, t: Tid, on: bool): Machine {
    s.(terminating := if on then s.terminating + {t} else s.terminating - {t})
  }

  // --------------------------------------------------------------- park and wake

  /** The running task reserves a slot and leaves the park right in its ticket cell. */
  function Block(s: Machine, c: Cpu): Machine
    requires c in s.current
  {
    s.(lot := s.lot[s.nextRes := Reserved],
       tickets := s.tickets[s.current[c] := s.nextRes],
       wakeRights := s.wakeRights + {s.nextRes},
       nextRes := s.nextRes + 1)
  }

  /** The one unpark a wake right allows: the task comes out, or its park will bounce. */
  function Wake(s: Machine, r: Res, h: nat): Machine {
    var parked := r in s.lot && s.lot[r].Occupied?;
    s.(wakeRights := s.wakeRights - {r},
       lot := if parked then s.lot - {r} else s.lot[r := Unparked],
       hands := if parked then s.hands[h := s.lot[r].t] else s.hands)
  }

  // ------------------------------------------------------------------- reschedule

  function Enter(s: Machine, c: Cpu): Machine {
    s.(phase := s.phase[c := Entered])
  }

  /** Where `route` sends the zombie. */
  datatype Target = Nowhere | ToIdle | ToQueue | ToSlot(r: Res) | Bounces(r: Res) | ToCleanup

  function TargetOf(s: Machine, c: Cpu): Target {
    if c !in s.zombie then Nowhere
    else
      match s.zombie[c].disposal
      case Enqueue => if c in s.idleTid && s.idleTid[c] == s.zombie[c].t then ToIdle else ToQueue
      case Park(r) => if r in s.lot && s.lot[r] == Reserved then ToSlot(r) else Bounces(r)
      case Terminate => ToCleanup
  }

  function Route(s: Machine, c: Cpu): Machine {
    var target := TargetOf(s, c);
    var t := if c in s.zombie then s.zombie[c].t else 0;
    s.(zombie := s.zombie - {c},
       phase := s.phase[c := Routed],
       idle := if target == ToIdle then s.idle[c := t] else s.idle,
       runQueue := if target == ToQueue || target.Bounces? then s.runQueue + [t] else s.runQueue,
       lot := match target
         case ToSlot(r) => s.lot[r := Occupied(t)]
         case Bounces(r) => s.lot - {r}
         case _ => s.lot,
       cleanup := if target == ToCleanup then s.cleanup + [t] else s.cleanup)
  }

  /** The current task cannot stay on the CPU. */
  predicate MustLeave(s: Machine, c: Cpu)
    requires c in s.current
  {
    s.current[c] in s.tickets || s.current[c] in s.terminating
  }

  /** `next_task` looks in the run queue first. */
  function Pick(s: Machine, c: Cpu): Machine {
    var found := |s.runQueue| > 0;
    s.(picked := if found then s.picked[c := s.runQueue[0]] else s.picked,
       runQueue := if found then s.runQueue[1..] else s.runQueue,
       phase := s.phase[c := if found then HasNext else NoneQueued])
  }

  /** The own idle task is the target only if the current one cannot stay.  With neither,
  `reschedule` returns and the current task goes on. */
  function PickIdle(s: Machine, c: Cpu): Machine
    requires c in s.current
  {
    var found := MustLeave(s, c) && c in s.idle;
    s.(picked := if found then s.picked[c := s.idle[c]] else s.picked,
       idle := if found then s.idle - {c} else s.idle,
       phase := s.phase[c := if found then HasNext else Running])
  }

  /** A pending park ticket wins over termination. */
  function DisposalOf(s: Machine, t: Tid): Disposal {
    if t in s.tickets then Park(s.tickets[t])
    else if t in s.terminating then Terminate
    else Enqueue
  }

  /** Swap the tasks, take the ticket, and decide where the old task will go. */
  function Leave(s: Machine, c: Cpu): Machine
    requires c in s.current && c in s.picked
  {
    var t := s.current[c];
    s.(current := s.current[c := s.picked[c]],
       picked := s.picked - {c},
       leaving := s.leaving[c := Outgoing(t, DisposalOf(s, t))],
       tickets := s.tickets - {t},
       phase := s.phase[c := HasOld])
  }

  /** The context switch: the old stack pointer is stored unless the dummy slot was chosen,
  and the new one is loaded, after which the stored copy goes stale. */
  function Switch(s: Machine, c: Cpu): Machine
    requires c in s.current && c in s.leaving
  {
    var out := s.leaving[c];
    var stored := if out.disposal == Terminate then s.saved else s.saved + {out.t};
    s.(zombie := s.zombie[c := out],
       leaving := s.leaving - {c},
       phase := s.phase[c := Running],
       saved := stored - {s.current[c]})
  }

  // ------------------------------------------------------------------------ runs

  datatype Step =
    | DoBoot(c: Cpu, t: Tid)
    | DoCreate(h: nat, t: Tid)
    | DoSetIdleTask(c: Cpu, t: Tid)
    | DoEnqueueHand(h: nat)
    | DoDropCorpse
    | DoSetTerminate(t: Tid, on: bool)
    | DoBlock(c: Cpu)
    | DoWake(r: Res, h: nat)
    | DoEnter(c: Cpu)
    | DoRoute(c: Cpu)
    | DoPick(c: Cpu)
    | DoPickIdle(c: Cpu)
    | DoLeave(c: Cpu)
    | DoSwitch(c: Cpu)

  /** Some CPU's idle task, which only halts: it never blocks and is never told to terminate. */
  predicate IsIdle(idleTid: map<Cpu, Tid>, t: Tid) {
    exists c :: c in idleTid && idleTid[c] == t
  }

  predicate InPhase(s: Machine, c: Cpu, phase: Phase) {
    c in s.current && c in s.phase && s.phase[c] == phase
  }

  predicate Enabled(s: Machine, step: Step) {
    match step
    case DoBoot(c, t) => c !in s.current && t !in s.live
    case DoCreate(h, t) => h !in s.hands && t !in s.live
    case DoSetIdleTask(c, t) => InPhase(s, c, Running) && c !in s.idleTid && t !in s.live
    case DoEnqueueHand(h) => h in s.hands
    case DoDropCorpse => |s.cleanup| > 0
    case DoSetTerminate(t, _) => t in s.live && !IsIdle(s.idleTid, t)
    case DoBlock(c) => InPhase(s, c, Running) && s.current[c] !in s.tickets && !IsIdle(s.idleTid, s.current[c])
    case DoWake(r, h) => r in s.wakeRights && h !in s.hands
    case DoEnter(c) => InPhase(s, c, Running)
    case DoRoute(c) => InPhase(s, c, Entered)
    case DoPick(c) => InPhase(s, c, Routed)
    case DoPickIdle(c) => InPhase(s, c, NoneQueued)
    case DoLeave(c) => InPhase(s, c, HasNext) && c in s.picked
    case DoSwitch(c) => InPhase(s, c, HasOld) && c in s.leaving
  }

  function Apply(s: Machine, step: Step): Machine
    requires Enabled(s, step)
  {
    match step
    case DoBoot(c, t) => Boot(s, c, t)
    case DoCreate(h, t) => Create(s, h, t)
    case DoSetIdleTask(c, t) => SetIdleTask(s, c, t)
    case DoEnqueueHand(h) => EnqueueHand(s, h)
    case DoDropCorpse => DropCorpse(s)
    case DoSetTerminate(t, on) => SetTerminate(s, t, on)
    case DoBlock(c) => Block(s, c)
    case DoWake(r, h) => Wake(s, r, h)
    case DoEnter(c) => Enter(s, c)
    case DoRoute(c) => Route(s, c)
    case DoPick(c) => Pick(s, c)
    case DoPickIdle(c) => PickIdle(s, c)
    case DoLeave(c) => Leave(s, c)
    case DoSwitch(c) => Switch(s, c)
  }

  ghost predicate Next(s: Machine, s': Machine) {
    exists step :: Enabled(s, step) && s' == Apply(s, step)
  }

  ghost predicate IsRun(run: seq<Machine>) {
    && |run| > 0
    && run[0] == Initial()
    && forall i :: 0 <= i < |run| - 1 ==> Next(run[i], run[i + 1])
  }
}
