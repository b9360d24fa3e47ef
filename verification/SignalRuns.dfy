/** Everything the process signals lock protects, and every run of what happens under it:
generation, tick delivery, faults, sigaction, sigprocmask, sigreturn, exec and exec reaps. */
module SignalRuns {
  import opened Basics
  import opened SignalAbi
  import opened Signals

  type Ticket = nat

  datatype Guarded = Guarded(
    state: SigState,
    stopUnpark: seq<Ticket>, // wake tickets of the tasks parked by a stop
    stored: seq<Ticket>,     // history: tickets ever put in stopUnpark
    fired: seq<Ticket>)      // history: tickets unparked

  function Start(): Guarded {
    Guarded(Initial(), [], [], [])
  }

  // ------------------------------------------------------------- steps

  function Drain(g: Guarded): Guarded {
    g.(stopUnpark := [], fired := g.fired + g.stopUnpark)
  }

  function GenerateStep(g: Guarded, n: Signal): Guarded {
    var g' := g.(state := Generate(g.state, n));
    if Resumes(g.state, n) then Drain(g') else g'
  }

  /** The stop park: `offer` is the ticket of a reservation the task's cell accepted, if there was one. */
  function StopPark(g: Guarded, offer: Option<Ticket>): Guarded {
    match offer
    case None => g
    case Some(x) => g.(stopUnpark := g.stopUnpark + [x], stored := g.stored + [x])
  }

  function TickStep(g: Guarded, offer: Option<Ticket>): Guarded
    requires g.state.Valid()
  {
    var g' := g.(state := Tick(g.state));
    if TickOutcome(g.state) == Stopping then StopPark(g', offer) else g'
  }

  /** A page fault: enter the handler if there is one and it is not blocked, else record the signal and die. */
  function FaultStep(g: Guarded): Guarded
    requires g.state.Valid()
  {
    match DispositionOf(g.state, SEGFAULT)
    case Handler(a) =>
      if SEGFAULT !in g.state.blocked then g.(state := EnterHandler(g.state, SEGFAULT, a))
      else g.(state := Raise(g.state, SEGFAULT))
    case _ => g.(state := Raise(g.state, SEGFAULT))
  }

  datatype Step =
    | DoGenerate(n: Signal)
    | DoTick(offer: Option<Ticket>)
    | DoFault
    | DoSigaction(n: Signal, new_: Option<SigAction>)
    | DoSigprocmask(how: MaskHow, m: SigSet)
    | DoSigreturn(m: SigSet)
    | DoExec
    | DoReap

  function Apply(g: Guarded, e: Step): Guarded
    requires g.state.Valid()
  {
    match e
    case DoGenerate(n) => GenerateStep(g, n)
    case DoTick(offer) => TickStep(g, offer)
    case DoFault => FaultStep(g)
    case DoSigaction(n, new_) => g.(state := SetAction(g.state, n, new_))
    case DoSigprocmask(how, m) => g.(state := g.state.(blocked := MaskWith(g.state, how, m)))
    case DoSigreturn(m) => g.(state := g.state.(blocked := m - KILL_STOP))
    case DoExec => g.(state := ResetForExec(g.state))
    case DoReap => Drain(g)
  }

  // ------------------------------------------------------------- the invariant

  /** Kill and Stop are never blocked and never anything but default; what is installed is acceptable. */
  ghost predicate ActionsOk(s: SigState) {
    && s.Valid()
    && KILL !in s.blocked && STOP !in s.blocked
    && s.actions[KILL - 1] == DEFAULT_ACTION && s.actions[STOP - 1] == DEFAULT_ACTION
    && forall i :: 0 <= i < COUNT ==> s.actions[i] == DEFAULT_ACTION || Acceptable(i + 1, s.actions[i])
  }

  /** Continue never pends beside a stop signal, and nothing that would resume a stopped process pends. */
  ghost predicate PendingOk(s: SigState) {
    && (CONTINUE in s.pending ==> s.pending !! STOP_SIGNALS)
    && (s.stopped ==> KILL !in s.pending && CONTINUE !in s.pending)
  }

  ghost predicate Inv(g: Guarded) {
    && ActionsOk(g.state) && PendingOk(g.state)
    && (!g.state.stopped ==> g.stopUnpark == [])
    && g.stored == g.fired + g.stopUnpark
  }

  lemma GenerateInv(s: SigState, n: Signal)
    requires ActionsOk(s) && PendingOk(s)
    ensures ActionsOk(Generate(s, n)) && PendingOk(Generate(s, n))
  {
  }

  lemma RaiseInv(s: SigState, n: Signal)
    requires ActionsOk(s) && PendingOk(s) && n != KILL && n != CONTINUE
    ensures ActionsOk(Raise(s, n)) && PendingOk(Raise(s, n))
  {
  }

  lemma ExecInv(s: SigState)
    requires ActionsOk(s)
    ensures ActionsOk(ResetForExec(s))
  {
  }

  lemma HandlerInv(s: SigState, n: Signal, a: SigAction)
    requires ActionsOk(s)
    ensures ActionsOk(EnterHandler(s, n, a))
  {
  }

  /** A pending Kill is effective and numbered below every stop signal, so no tick stops over it. */
  lemma KillBeatsStop(s: SigState)
    requires ActionsOk(s) && !s.stopped && KILL in s.pending
    ensures Effective(s) != {} && Lowest(Effective(s)) <= KILL
    ensures TickOutcome(s) != Stopping
  {
    assert KILL in Effective(s);
    var n := Lowest(Effective(s));
    assert n !in STOP_SIGNALS;
  }

  lemma TickInv(s: SigState)
    requires ActionsOk(s) && PendingOk(s)
    ensures ActionsOk(Tick(s)) && PendingOk(Tick(s))
    ensures Tick(s).stopped == (TickOutcome(s) == Stopping)
  {
    if !s.stopped && Effective(s) != {} {
      var n := Lowest(Effective(s));
      var s' := s.(pending := PendingAbove(s, n));
      if KILL in s.pending {
        KillBeatsStop(s);
      }
      match DispositionOf(s, n)
      case Handler(a) => HandlerInv(s', n, a);
      case DefaultStop => assert n in STOP_SIGNALS && n in s.pending;
      case _ =>
    }
  }

  lemma StepInv(g: Guarded, e: Step)
    requires Inv(g)
    ensures Inv(Apply(g, e))
  {
    match e
    case DoGenerate(n) => GenerateInv(g.state, n);
    case DoTick(_) => TickInv(g.state);
    case DoFault =>
      RaiseInv(g.state, SEGFAULT);
      match DispositionOf(g.state, SEGFAULT) {
        case Handler(a) => HandlerInv(g.state, SEGFAULT, a);
        case _ =>
      }
    case DoExec => ExecInv(g.state);
    case _ =>
  }

  // ------------------------------------------------------------- every run

  ghost predicate IsRun(run: seq<Guarded>) {
    && |run| > 0 && run[0] == Start()
    && forall i :: 0 <= i < |run| - 1 ==> Next(run[i], run[i + 1])
  }

  ghost predicate Next(g: Guarded, g': Guarded) {
    g.state.Valid() && exists e :: Apply(g, e) == g'
  }

  lemma {:induction false} RunInv(run: seq<Guarded>, i: nat)
    requires IsRun(run) && i < |run|
    ensures Inv(run[i])
  {
    if i > 0 {
      RunInv(run, i - 1);
      assert Next(run[i - 1], run[i - 1 + 1]);
      var e :| Apply(run[i - 1], e) == run[i];
      StepInv(run[i - 1], e);
    }
  }

  /** What holds whenever the lock is free. */
  lemma RunSafe(run: seq<Guarded>, i: nat)
    requires IsRun(run) && i < |run|
    ensures KILL !in run[i].state.blocked && STOP !in run[i].state.blocked
    ensures run[i].state.Valid()
    ensures run[i].state.actions[KILL - 1] == DEFAULT_ACTION && run[i].state.actions[STOP - 1] == DEFAULT_ACTION
    ensures CONTINUE in run[i].state.pending ==> run[i].state.pending !! STOP_SIGNALS
    ensures run[i].state.stopped ==> KILL !in run[i].state.pending && CONTINUE !in run[i].state.pending
    ensures !run[i].state.stopped ==> run[i].stopUnpark == []
    ensures run[i].stored == run[i].fired + run[i].stopUnpark
  {
    RunInv(run, i);
  }

  /** Once Kill is generated no tick stops the process: each tick terminates it or acts on a
  signal numbered below Kill, and Kill stays pending until one terminates. */
  lemma RunKillActs(run: seq<Guarded>, i: nat)
    requires IsRun(run) && i < |run| && KILL in run[i].state.pending
    ensures run[i].state.Valid() && !run[i].state.stopped
    ensures TickOutcome(run[i].state).Terminating? || TickOutcome(run[i].state).Entering?
    ensures TickOutcome(run[i].state).n <= KILL
    ensures TickOutcome(run[i].state).n == KILL ==> TickOutcome(run[i].state).Terminating?
    ensures TickOutcome(run[i].state).n < KILL ==> KILL in Tick(run[i].state).pending
  {
    RunInv(run, i);
    KillBeatsStop(run[i].state);
  }

  predicate Interrupts(s: SigState, n: Signal)
    requires s.Valid()
  {
    DispositionOf(s, n).Handler? || DispositionOf(s, n).DefaultTerminate?
  }

  /** A signal that ends an interruptible wait: a handler or a default termination is deliverable. */
  predicate HasInterrupting(s: SigState)
    requires s.Valid()
  {
    exists n :: n in Deliverable(s) && Interrupts(s, n)
  }

  /** A tick of a running process enters a handler or terminates exactly when the wait would be
  interrupted, unless a stop signal is deliverable below every interrupting one. */
  lemma InterruptMeansAction(s: SigState)
    requires ActionsOk(s) && !s.stopped
    ensures (TickOutcome(s).Entering? || TickOutcome(s).Terminating?) <==>
            HasInterrupting(s) && DispositionOf(s, Lowest(Effective(s))) != DefaultStop
  {
    if HasInterrupting(s) {
      var n :| n in Deliverable(s) && Interrupts(s, n);
      assert n in Effective(s);
    }
    if Effective(s) != {} {
      var n := Lowest(Effective(s));
      assert n in Deliverable(s);
      assert Interrupts(s, n) <==> DispositionOf(s, n) != DefaultStop;
    }
  }

  // ------------------------------------------------------------- how a wait comes to be interrupted

  /** With the mask `m` a pending signal would interrupt. */
  predicate Uncovers(s: SigState, m: SigSet)
    requires s.Valid()
  {
    exists n :: n in s.pending && n !in m && Interrupts(s, n)
  }

  /** The steps that make an interrupting signal deliverable where there was none. */
  predicate StartsInterrupting(s: SigState, e: Step)
    requires s.Valid()
  {
    match e
    case DoGenerate(n) => n !in s.blocked && Interrupts(s, n)
    case DoFault => SEGFAULT !in s.blocked && DispositionOf(s, SEGFAULT).DefaultTerminate?
    case DoSigaction(n, new_) =>
      n in Deliverable(s) && new_.Some? && Acceptable(n, new_.value) && Interrupts(SetAction(s, n, new_), n)
    case DoSigprocmask(how, m) => Uncovers(s, MaskWith(s, how, m))
    case DoSigreturn(m) => Uncovers(s, m - KILL_STOP)
    case DoTick(_) | DoExec | DoReap => false
  }

  lemma RaiseStarts(s: SigState, n: Signal)
    requires s.Valid() && !HasInterrupting(s)
    ensures Raise(s, n).Valid() && (HasInterrupting(Raise(s, n)) <==> n !in s.blocked && Interrupts(s, n))
  {
    var s' := Raise(s, n);
    if HasInterrupting(s') {
      var m :| m in Deliverable(s') && Interrupts(s', m);
      assert m != n ==> m in Deliverable(s) && Interrupts(s, m);
    }
    if n !in s.blocked && Interrupts(s, n) {
      assert n in Deliverable(s') && Interrupts(s', n);
    }
  }

  lemma GenerateStarts(s: SigState, n: Signal)
    requires s.Valid() && !HasInterrupting(s)
    ensures Generate(s, n).Valid() && (HasInterrupting(Generate(s, n)) <==> n !in s.blocked && Interrupts(s, n))
  {
    RaiseStarts(s, n);
    SameInterrupting(Raise(s, n), Generate(s, n));
  }

  lemma SameInterrupting(s: SigState, s': SigState)
    requires s.Valid() && s'.Valid() && s'.actions == s.actions && Deliverable(s') == Deliverable(s)
    ensures HasInterrupting(s') <==> HasInterrupting(s)
  {
    assert forall n: Signal :: Interrupts(s', n) <==> Interrupts(s, n);
  }

  /** Fewer deliverable signals with the same dispositions interrupt no more. */
  lemma FewerInterrupting(s: SigState, s': SigState)
    requires s.Valid() && s'.Valid() && !HasInterrupting(s) && Deliverable(s') <= Deliverable(s)
    requires forall n: Signal :: n in Deliverable(s') && Interrupts(s', n) ==> Interrupts(s, n)
    ensures !HasInterrupting(s')
  {
  }

  lemma TickStarts(s: SigState)
    requires s.Valid() && !HasInterrupting(s)
    ensures Tick(s).Valid() && !HasInterrupting(Tick(s))
  {
    if !s.stopped && Effective(s) != {} {
      var n := Lowest(Effective(s));
      assert n in Deliverable(s) && !Interrupts(s, n);
    }
    FewerInterrupting(s, Tick(s));
  }

  lemma FaultStarts(g: Guarded)
    requires ActionsOk(g.state) && !HasInterrupting(g.state)
    ensures FaultStep(g).state.Valid()
    ensures HasInterrupting(FaultStep(g).state) <==> StartsInterrupting(g.state, DoFault)
  {
    var s := g.state;
    RaiseStarts(s, SEGFAULT);
    match DispositionOf(s, SEGFAULT)
    case Handler(a) =>
      if SEGFAULT !in s.blocked {
        assert Interrupts(s, SEGFAULT);
        FewerInterrupting(s, EnterHandler(s, SEGFAULT, a));
      }
    case _ =>
  }

  lemma ActionStarts(s: SigState, n: Signal, new_: Option<SigAction>)
    requires s.Valid() && !HasInterrupting(s)
    ensures SetAction(s, n, new_).Valid()
    ensures HasInterrupting(SetAction(s, n, new_)) <==> StartsInterrupting(s, DoSigaction(n, new_))
  {
    var s' := SetAction(s, n, new_);
    assert forall m: Signal :: m != n ==> (Interrupts(s', m) <==> Interrupts(s, m));
    if HasInterrupting(s') {
      var m :| m in Deliverable(s') && Interrupts(s', m);
      assert m == n;
    }
    if StartsInterrupting(s, DoSigaction(n, new_)) {
      assert n in Deliverable(s') && Interrupts(s', n);
    }
  }

  lemma MaskStarts(s: SigState, m: SigSet)
    requires s.Valid()
    ensures HasInterrupting(s.(blocked := m)) <==> Uncovers(s, m)
  {
    var s' := s.(blocked := m);
    assert forall n: Signal :: Interrupts(s', n) <==> Interrupts(s, n);
    if Uncovers(s, m) {
      var n :| n in s.pending && n !in m && Interrupts(s, n);
      assert n in Deliverable(s') && Interrupts(s', n);
    }
    if HasInterrupting(s') {
      var n :| n in Deliverable(s') && Interrupts(s', n);
      assert n in s.pending && n !in m && Interrupts(s, n);
    }
  }

  lemma ExecStarts(s: SigState)
    requires ActionsOk(s) && !HasInterrupting(s)
    ensures ResetForExec(s).Valid() && !HasInterrupting(ResetForExec(s))
  {
    forall n: Signal ensures Interrupts(ResetForExec(s), n) ==> Interrupts(s, n) {
      ExecInterrupts(s, n);
    }
    FewerInterrupting(s, ResetForExec(s));
  }

  lemma ExecInterrupts(s: SigState, n: Signal)
    requires s.Valid()
    ensures ResetForExec(s).Valid() && (Interrupts(ResetForExec(s), n) ==> Interrupts(s, n))
  {
    var i := n - 1;
    assert ResetForExec(s).actions[i] == if s.actions[i].handler == HANDLER_IGNORE then s.actions[i] else DEFAULT_ACTION;
  }

  /** Exactly these steps turn a process whose waits go on into one whose waits are interrupted. */
  lemma StepStarts(g: Guarded, e: Step)
    requires Inv(g) && !HasInterrupting(g.state)
    ensures Apply(g, e).state.Valid() && (HasInterrupting(Apply(g, e).state) <==> StartsInterrupting(g.state, e))
  {
    hide HasInterrupting;
    match e
    case DoGenerate(n) => GenerateStarts(g.state, n);
    case DoTick(_) => TickStarts(g.state);
    case DoFault => FaultStarts(g);
    case DoSigaction(n, new_) => ActionStarts(g.state, n, new_);
    case DoSigprocmask(how, m) => MaskStarts(g.state, MaskWith(g.state, how, m));
    case DoSigreturn(m) => MaskStarts(g.state, m - KILL_STOP);
    case DoExec => ExecStarts(g.state);
    case DoReap =>
  }

  /** In every run: waits come to be interrupted by a generation, a fault, or a change of the mask or of
  an action that uncovers a pending signal, and by nothing else. */
  lemma RunStarts(run: seq<Guarded>, i: nat)
    requires IsRun(run) && i + 1 < |run|
    ensures run[i].state.Valid() && run[i + 1].state.Valid()
    ensures !HasInterrupting(run[i].state) && HasInterrupting(run[i + 1].state) ==>
      exists e :: Apply(run[i], e) == run[i + 1] && StartsInterrupting(run[i].state, e)
  {
    hide HasInterrupting, StartsInterrupting;
    RunInv(run, i);
    assert Next(run[i], run[i + 1]);
    var e :| Apply(run[i], e) == run[i + 1];
    StepInv(run[i], e);
    if !HasInterrupting(run[i].state) {
      StepStarts(run[i], e);
    }
  }

  /** Every signal that terminates by default and can be blocked shows it: blocked, generated and
  unblocked, it interrupts from the unblocking on, which wakes nobody. */
  lemma UnblockingInterrupts(n: Signal) returns (run: seq<Guarded>)
    requires DefaultOf(n) == Terminate && n != KILL
    ensures IsRun(run) && |run| == 4
    ensures run[2].state.Valid() && run[3].state.Valid()
    ensures run[3] == Apply(run[2], DoSigprocmask(Unblock, {n}))
    ensures !HasInterrupting(run[2].state) && HasInterrupting(run[3].state)
  {
    var g0 := Start();
    var g1 := Apply(g0, DoSigprocmask(Block, {n}));
    var g2 := Apply(g1, DoGenerate(n));
    var g3 := Apply(g2, DoSigprocmask(Unblock, {n}));
    run := [g0, g1, g2, g3];
    assert Next(g0, g1) && Next(g1, g2) && Next(g2, g3);
    assert g2.state.pending == {n} && g2.state.blocked == {n};
    assert g3.state.pending == {n} && g3.state.blocked == {};
    assert n in Deliverable(g3.state) && Interrupts(g3.state, n);
  }

  // ------------------------------------------------------------- the object

  class LockedSignals {
    const state: SignalState
    var stopUnpark: seq<Ticket>
    var stored: seq<Ticket>
    var fired: seq<Ticket>

    function View(): Guarded
      reads this, state
    {
      Guarded(state.View(), stopUnpark, stored, fired)
    }

    constructor ()
      ensures View() == Start() && fresh(state)
    {
      state := new SignalState();
      stopUnpark, stored, fired := [], [], [];
    }

    method StoreStopUnpark(x: Ticket)
      modifies this
      ensures View() == StopPark(old(View()), Some(x))
    {
      stopUnpark, stored := stopUnpark + [x], stored + [x];
    }

    method ResumeStoppedTasks()
      modifies this
      ensures View() == Drain(old(View()))
    {
      ghost var s := state.View();
      while stopUnpark != []
        invariant state.View() == s && stored == old(stored)
        invariant fired + stopUnpark == old(fired) + old(stopUnpark)
        decreases |stopUnpark|
      {
        assert fired + stopUnpark == fired + [stopUnpark[0]] + stopUnpark[1..];
        fired, stopUnpark := fired + [stopUnpark[0]], stopUnpark[1..];
      }
      assert fired == fired + stopUnpark;
    }

    /** Signal generation, up to waking the interruptible waits. */
    method Deliver(n: Signal)
      modifies this, state
      ensures View() == GenerateStep(old(View()), n)
    {
      var resumeTasks := state.Deliver(n);
      if resumeTasks {
        ResumeStoppedTasks();
      }
    }

    /** One timer tick.  `acquired` is the outcome of the try-lock, `reservation` that of the
    try-reserve, and `cellFree` says whether the task holds no park ticket yet. */
    method TickDelivery(acquired: bool, reservation: Option<Ticket>, cellFree: bool) returns (o: Outcome)
      requires state.View().Valid()
      modifies this, state
      ensures !acquired ==> o == Nothing && View() == old(View())
      ensures acquired ==> o == TickOutcome(old(View()).state)
      ensures acquired ==> View() == TickStep(old(View()), if cellFree then reservation else None)
    {
      if !acquired {
        return Nothing;
      }
      o := state.DeliverPending();
      if o == Stopping && reservation.Some? && cellFree {
        StoreStopUnpark(reservation.value);
      }
    }
  }
}
