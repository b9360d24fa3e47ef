/** The waits of one process: interruptible parking, wake-up by signal generation, by the
deadline sweep and by an exec reap, and the live-task accounting the reap waits on.

Every lock section and every atomic access of the source is one step, so a run of this
machine is an interleaving of any number of tasks, signal generators, timer sweeps and
retiring tasks.  A waker is named by the reservation it wakes: its parking lot slot and
its fired flag, which is swapped before the slot is exchanged, are changed in two steps.
*/
module ProcessWaits {
  import opened Basics
  import opened ParkSlot

  type Tid = nat
  type Wid = nat

  /** What a task of the process is about to do. */
  datatype Pc =
    | User
    // park_current_task
    | LoopFlag | LoopLock | LoopCheck
    | WaitReserve | WaitSleep(w: Wid) | WaitRegister(w: Wid)
    | Recheck(w: Wid) | RecheckFlag(w: Wid) | RecheckLock(w: Wid)
    | WaitSelf(w: Wid) | WaitBlock(w: Wid) | WaitParked(w: Wid) | WaitClear(w: Wid)
    // reap_sibling_tasks
    | ReapClaim | ReapResume | ReapTake | ReapFire
    | ReapCheck | ReapReserve | ReapArm(w: Wid)
    | ReapSelf(w: Wid) | ReapBlock(w: Wid) | ReapParked(w: Wid)
    // the token of a finished reap, and giving it back
    | Sole | Finish
    | Exiting

  datatype Reg = Reg(t: Tid, w: Wid)
  datatype Sleeper = Sleeper(deadline: nat, w: Wid)
  datatype Reap = Reap(keeper: Tid, waiter: Option<Wid>)

  /** Whoever is firing wakers: a task itself, or another thread of the kernel. */
  datatype Actor = OfTask(t: Tid) | OfThread(n: nat)

  datatype Process = Process(
    pc: map<Tid, Pc>,
    deadline: map<Tid, Option<nat>>,
    slots: map<Wid, Slot>,
    fired: set<Wid>,
    registered: set<Reg>,
    sleepers: set<Sleeper>,
    ready: set<Tid>,          // the tasks whose condition an event has made true
    published: set<nat>,      // generators between the event and taking the list
    todo: map<Actor, set<Wid>>, // wakers taken and still to fire
    mid: map<Actor, Wid>,     // waker marked fired, its slot still to be exchanged
    now: nat,
    live: int,
    reap: Option<Reap>,
    reapActive: bool)

  const EMPTY := Process(map[], map[], map[], {}, {}, {}, {}, {}, map[], map[], 0, 0, None, false)

  predicate At(s: Process, t: Tid, p: Pc) {
    t in s.pc && s.pc[t] == p
  }

  /** The wait's condition as its closure sees it: an event, or the deadline it arms. */
  predicate ShouldWake(s: Process, t: Tid)
    requires t in s.deadline
  {
    t in s.ready || (s.deadline[t].Some? && s.deadline[t].value <= s.now)
  }

  predicate Targeted(reap: Option<Reap>, t: Tid) {
    reap.Some? && reap.value.keeper != t
  }

  predicate Idle(s: Process, a: Actor) {
    a in s.todo && s.todo[a] == {} && a !in s.mid
  }

  predicate NewThread(s: Process, n: nat) {
    OfThread(n) !in s.todo && n !in s.published
  }

  function Go(s: Process, t: Tid, p: Pc): Process {
    s.(pc := s.pc[t := p])
  }

  /** The program counter of a task parked by the call it was about to make. */
  function Sleeping(p: Pc): Pc
    requires p.WaitBlock? || p.ReapBlock?
  {
    if p.WaitBlock? then WaitParked(p.w) else ReapParked(p.w)
  }

  /** The program counter of a task whose park has ended. */
  function Resumed(p: Pc): Pc {
    match p
    case WaitBlock(w) => WaitClear(w)
    case WaitParked(w) => WaitClear(w)
    case _ => ReapCheck
  }

  function Wids(regs: set<Reg>): set<Wid> {
    set r | r in regs :: r.w
  }

  // ------------------------------------------------------------- steps of the tasks

  datatype Step =
    | DoCreate(t: Tid)
    | DoCallWait(t: Tid, d: Option<nat>)
    | DoLoopFlag(t: Tid)
    | DoLoopLock(t: Tid)
    | DoLoopCheck(t: Tid)
    | DoReserve(t: Tid, w: Wid)
    | DoSleep(t: Tid)
    | DoRegister(t: Tid)
    | DoRecheck(t: Tid)
    | DoRecheckFlag(t: Tid)
    | DoRecheckLock(t: Tid)
    | DoEndFire(t: Tid)
    | DoPark(t: Tid)
    | DoClear(t: Tid)
    | DoCallReap(t: Tid)
    | DoClaim(t: Tid)
    | DoResumeStopped(t: Tid)
    | DoTakeOwn(t: Tid)
    | DoCheckLive(t: Tid)
    | DoReapReserve(t: Tid, w: Wid)
    | DoArm(t: Tid)
    | DoFinishFlag(t: Tid)
    | DoFinishReap(t: Tid)
    | DoExit(t: Tid)
    | DoRetire(t: Tid, n: nat)
    | DoPublish(n: nat, ts: set<Tid>)
    | DoTake(n: nat)
    | DoConsume(ts: set<Tid>)
    | DoExpire(n: nat, sl: Sleeper)
    | DoTick(time: nat)
    | DoFire(a: Actor, w: Wid)
    | DoExchange(a: Actor)
    | DoEndBatch(n: nat)

  predicate Enabled(s: Process, e: Step) {
    match e
    case DoCreate(t) => t !in s.pc && t !in s.deadline
    case DoCallWait(t, _) => At(s, t, User)
    case DoLoopFlag(t) => At(s, t, LoopFlag)
    case DoLoopLock(t) => At(s, t, LoopLock)
    case DoLoopCheck(t) => At(s, t, LoopCheck) && t in s.deadline
    case DoReserve(t, w) => At(s, t, WaitReserve) && w !in s.slots
    case DoSleep(t) => t in s.pc && s.pc[t].WaitSleep? && t in s.deadline
    case DoRegister(t) => t in s.pc && s.pc[t].WaitRegister?
    case DoRecheck(t) => t in s.pc && s.pc[t].Recheck? && t in s.deadline
    case DoRecheckFlag(t) => t in s.pc && s.pc[t].RecheckFlag?
    case DoRecheckLock(t) => t in s.pc && s.pc[t].RecheckLock?
    case DoEndFire(t) => t in s.pc && (s.pc[t].WaitSelf? || s.pc[t].ReapSelf? || s.pc[t] == ReapFire) && Idle(s, OfTask(t))
    case DoPark(t) =>
      && t in s.pc && (s.pc[t].WaitBlock? || s.pc[t].ReapBlock?)
      && s.pc[t].w in s.slots && (s.slots[s.pc[t].w] == Reserved || s.slots[s.pc[t].w] == Unparked)
    case DoClear(t) => t in s.pc && s.pc[t].WaitClear?
    case DoCallReap(t) => At(s, t, User)
    case DoClaim(t) => At(s, t, ReapClaim)
    case DoResumeStopped(t) => At(s, t, ReapResume)
    case DoTakeOwn(t) => At(s, t, ReapTake)
    case DoCheckLive(t) => At(s, t, ReapCheck)
    case DoReapReserve(t, w) => At(s, t, ReapReserve) && w !in s.slots
    case DoArm(t) => t in s.pc && s.pc[t].ReapArm?
    case DoFinishFlag(t) => At(s, t, Sole)
    case DoFinishReap(t) => At(s, t, Finish)
    case DoExit(t) => At(s, t, User) || At(s, t, Sole)
    case DoRetire(t, n) => At(s, t, Exiting) && NewThread(s, n)
    case DoPublish(n, _) => NewThread(s, n)
    case DoTake(n) => n in s.published && OfThread(n) !in s.todo
    case DoConsume(_) => true
    case DoExpire(n, sl) => NewThread(s, n) && sl in s.sleepers && sl.deadline <= s.now
    case DoTick(time) => s.now <= time
    case DoFire(a, w) => a in s.todo && w in s.todo[a] && a !in s.mid
    case DoExchange(a) =>
      && a in s.mid && s.mid[a] in s.slots
      && (s.slots[s.mid[a]] == Reserved || s.slots[s.mid[a]].Occupied?)
    case DoEndBatch(n) => Idle(s, OfThread(n))
  }

  /** A new task is counted before it can run; its kernel-wide id is never used again. */
  function Create(s: Process, t: Tid): Process {
    s.(pc := s.pc[t := User], deadline := s.deadline[t := None], live := s.live + 1)
  }

  function CallWait(s: Process, t: Tid, d: Option<nat>): Process {
    s.(pc := s.pc[t := LoopFlag], deadline := s.deadline[t := d])
  }

  function LoopFlagStep(s: Process, t: Tid): Process {
    Go(s, t, if s.reapActive then LoopLock else LoopCheck)
  }

  function LoopLockStep(s: Process, t: Tid): Process {
    Go(s, t, if Targeted(s.reap, t) then User else LoopCheck)
  }

  function LoopCheckStep(s: Process, t: Tid): Process
    requires t in s.deadline
  {
    Go(s, t, if ShouldWake(s, t) then User else WaitReserve)
  }

  function Reserve(s: Process, t: Tid, w: Wid): Process {
    s.(pc := s.pc[t := WaitSleep(w)], slots := s.slots[w := Reserved])
  }

  function SleepStep(s: Process, t: Tid): Process
    requires t in s.pc && s.pc[t].WaitSleep? && t in s.deadline
  {
    var w := s.pc[t].w;
    s.(pc := s.pc[t := WaitRegister(w)],
       sleepers := if s.deadline[t].Some? then s.sleepers + {Sleeper(s.deadline[t].value, w)} else s.sleepers)
  }

  function Register(s: Process, t: Tid): Process
    requires t in s.pc && s.pc[t].WaitRegister?
  {
    s.(pc := s.pc[t := Recheck(s.pc[t].w)], registered := s.registered + {Reg(t, s.pc[t].w)})
  }

  /** If `wake` holds, the task wakes its own waker, so that the park that follows returns at once. */
  function SelfWakeIf(s: Process, t: Tid, w: Wid, wake: bool, self: Pc, otherwise: Pc): Process {
    s.(pc := s.pc[t := if wake then self else otherwise],
       todo := if wake then s.todo[OfTask(t) := {w}] else s.todo)
  }

  function RecheckStep(s: Process, t: Tid): Process
    requires t in s.pc && s.pc[t].Recheck? && t in s.deadline
  {
    SelfWakeIf(s, t, s.pc[t].w, ShouldWake(s, t), WaitSelf(s.pc[t].w), RecheckFlag(s.pc[t].w))
  }

  function RecheckFlagStep(s: Process, t: Tid): Process
    requires t in s.pc && s.pc[t].RecheckFlag?
  {
    Go(s, t, if s.reapActive then RecheckLock(s.pc[t].w) else WaitBlock(s.pc[t].w))
  }

  function RecheckLockStep(s: Process, t: Tid): Process
    requires t in s.pc && s.pc[t].RecheckLock?
  {
    SelfWakeIf(s, t, s.pc[t].w, Targeted(s.reap, t), WaitSelf(s.pc[t].w), WaitBlock(s.pc[t].w))
  }

  function EndFire(s: Process, t: Tid): Process
    requires t in s.pc
  {
    var next := match s.pc[t]
      case WaitSelf(w) => WaitBlock(w)
      case ReapSelf(w) => ReapBlock(w)
      case _ => ReapCheck;
    s.(pc := s.pc[t := next], todo := s.todo - {OfTask(t)})
  }

  /** The park exchange, done on the task's behalf once it is off its CPU: occupy or bounce. */
  function Park(s: Process, t: Tid): Process
    requires t in s.pc && (s.pc[t].WaitBlock? || s.pc[t].ReapBlock?) && s.pc[t].w in s.slots
  {
    var w := s.pc[t].w;
    var first := s.slots[w] == Reserved;
    s.(pc := s.pc[t := if first then Sleeping(s.pc[t]) else Resumed(s.pc[t])],
       slots := s.slots[w := if first then Occupied(t) else Done])
  }

  function Clear(s: Process, t: Tid): Process {
    s.(pc := s.pc[t := LoopFlag], registered := set r | r in s.registered && r.t != t)
  }

  /** A second reaper exits; the first one publishes the reap under the accounting lock. */
  function Claim(s: Process, t: Tid): Process {
    s.(pc := s.pc[t := if Targeted(s.reap, t) then Exiting else ReapResume],
       reap := if s.reap.None? then Some(Reap(t, None)) else s.reap,
       reapActive := s.reap.None? || s.reapActive)
  }

  function TakeOwn(s: Process, t: Tid): Process {
    s.(pc := s.pc[t := ReapFire], todo := s.todo[OfTask(t) := Wids(s.registered)], registered := {})
  }

  function CheckLive(s: Process, t: Tid): Process {
    Go(s, t, if s.live == 1 then Sole else ReapReserve)
  }

  function ReapReserveStep(s: Process, t: Tid, w: Wid): Process {
    s.(pc := s.pc[t := ReapArm(w)], slots := s.slots[w := Reserved])
  }

  function Arm(s: Process, t: Tid): Process
    requires t in s.pc && s.pc[t].ReapArm?
  {
    var w := s.pc[t].w;
    var s' := SelfWakeIf(s, t, w, s.live == 1, ReapSelf(w), ReapBlock(w));
    s'.(reap := if s.live != 1 && s.reap.Some? then Some(Reap(s.reap.value.keeper, Some(w))) else s.reap)
  }

  function FinishFlag(s: Process, t: Tid): Process {
    s.(pc := s.pc[t := Finish], reapActive := false)
  }

  function FinishReap(s: Process, t: Tid): Process {
    s.(pc := s.pc[t := User], reap := None)
  }

  predicate LastSibling(s: Process) {
    s.live == 2 && s.reap.Some? && s.reap.value.waiter.Some?
  }

  /** Dropping a dead task: the last sibling to go takes the reaper's waker and fires it. */
  function Retire(s: Process, t: Tid, n: nat): Process {
    var last := LastSibling(s);
    s.(pc := s.pc - {t},
       live := s.live - 1,
       reap := if last then Some(Reap(s.reap.value.keeper, None)) else s.reap,
       todo := if last then s.todo[OfThread(n) := {s.reap.value.waiter.value}] else s.todo)
  }

  // ------------------------------------------------------------- steps of the environment

  /** A generator makes the conditions of the tasks `ts` true, then takes and fires the whole list. */
  function Publish(s: Process, n: nat, ts: set<Tid>): Process {
    s.(ready := s.ready + ts, published := s.published + {n})
  }

  function Take(s: Process, n: nat): Process {
    s.(published := s.published - {n}, todo := s.todo[OfThread(n) := Wids(s.registered)], registered := {})
  }

  function Expire(s: Process, n: nat, sl: Sleeper): Process {
    s.(sleepers := s.sleepers - {sl}, todo := s.todo[OfThread(n) := {sl.w}])
  }

  /** `Waker::wake`: only the first caller to swap the flag goes on to the slot. */
  function Fire(s: Process, a: Actor, w: Wid): Process
    requires a in s.todo
  {
    s.(todo := s.todo[a := s.todo[a] - {w}],
       fired := s.fired + {w},
       mid := if w in s.fired then s.mid else s.mid[a := w])
  }

  function Exchange(s: Process, a: Actor): Process
    requires a in s.mid && s.mid[a] in s.slots
  {
    var w := s.mid[a];
    var slot := s.slots[w];
    s.(mid := s.mid - {a},
       slots := s.slots[w := if slot.Occupied? then Done else Unparked],
       pc := if slot.Occupied? && slot.t in s.pc then s.pc[slot.t := Resumed(s.pc[slot.t])] else s.pc)
  }

  function Apply(s: Process, e: Step): Process
    requires Enabled(s, e)
  {
    match e
    case DoCreate(t) => Create(s, t)
    case DoCallWait(t, d) => CallWait(s, t, d)
    case DoLoopFlag(t) => LoopFlagStep(s, t)
    case DoLoopLock(t) => LoopLockStep(s, t)
    case DoLoopCheck(t) => LoopCheckStep(s, t)
    case DoReserve(t, w) => Reserve(s, t, w)
    case DoSleep(t) => SleepStep(s, t)
    case DoRegister(t) => Register(s, t)
    case DoRecheck(t) => RecheckStep(s, t)
    case DoRecheckFlag(t) => RecheckFlagStep(s, t)
    case DoRecheckLock(t) => RecheckLockStep(s, t)
    case DoEndFire(t) => EndFire(s, t)
    case DoPark(t) => Park(s, t)
    case DoClear(t) => Clear(s, t)
    case DoCallReap(t) => Go(s, t, ReapClaim)
    case DoClaim(t) => Claim(s, t)
    case DoResumeStopped(t) => Go(s, t, ReapTake)
    case DoTakeOwn(t) => TakeOwn(s, t)
    case DoCheckLive(t) => CheckLive(s, t)
    case DoReapReserve(t, w) => ReapReserveStep(s, t, w)
    case DoArm(t) => Arm(s, t)
    case DoFinishFlag(t) => FinishFlag(s, t)
    case DoFinishReap(t) => FinishReap(s, t)
    case DoExit(t) => Go(s, t, Exiting)
    case DoRetire(t, n) => Retire(s, t, n)
    case DoPublish(n, ts) => Publish(s, n, ts)
    case DoTake(n) => Take(s, n)
    case DoConsume(ts) => s.(ready := s.ready - ts)
    case DoExpire(n, sl) => Expire(s, n, sl)
    case DoTick(time) => s.(now := time)
    case DoFire(a, w) => Fire(s, a, w)
    case DoExchange(a) => Exchange(s, a)
    case DoEndBatch(n) => s.(todo := s.todo - {OfThread(n)})
  }

  ghost predicate Next(s: Process, s': Process) {
    exists e :: Enabled(s, e) && Apply(s, e) == s'
  }

  ghost predicate IsRun(run: seq<Process>) {
    && |run| > 0
    && run[0] == EMPTY
    && forall i :: 0 <= i < |run| - 1 ==> Next(run[i], run[i + 1])
  }
}
