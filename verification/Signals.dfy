/** Signal numbers, masks and default actions. */
module SignalAbi {

  const COUNT := 27

  /** A signal number; 64-bit masks hold the numbers 1 to 64, bit n - 1 for number n. */
  type Signal = n: nat | 1 <= n <= COUNT witness 1
  type SigSet = m: set<nat> | forall n :: n in m ==> 1 <= n <= 64

  const CHILD: Signal := 4
  const CONTINUE: Signal := 5
  const KILL: Signal := 10
  const SEGFAULT: Signal := 13
  const STOP: Signal := 14
  const TERMINAL_STOP: Signal := 16
  const TERMINAL_INPUT: Signal := 17
  const TERMINAL_OUTPUT: Signal := 18
  const WINDOW_CHANGED: Signal := 21
  const URGENT: Signal := 24

  const STOP_SIGNALS: SigSet := {STOP, TERMINAL_STOP, TERMINAL_INPUT, TERMINAL_OUTPUT}
  const KILL_STOP: SigSet := {KILL, STOP}

  datatype DefaultAction = Terminate | Discard | Suspend

  function DefaultOf(n: Signal): DefaultAction {
    if n == CHILD || n == WINDOW_CHANGED || n == URGENT || n == CONTINUE then Discard
    else if n in STOP_SIGNALS then Suspend
    else Terminate
  }

  /** Scans a mask upwards from `i`, below which it is empty; from 1 this is trailing_zeros + 1. */
  function LowestFrom(m: SigSet, i: nat): (r: nat)
    requires m != {} && forall n :: n in m ==> i <= n
    ensures r in m && forall n :: n in m ==> r <= n
    decreases 64 - i
  {
    if i in m then i else LowestFrom(m, i + 1)
  }

  function Lowest(m: SigSet): (r: nat)
    requires m != {}
    ensures r in m && forall n :: n in m ==> r <= n
  {
    LowestFrom(m, 1)
  }
}

/** The per-process signal state: its transitions as functions of values, and the object that
the kernel keeps behind a lock, whose methods are proved to make exactly those transitions. */
module Signals {
  import opened Basics
  import opened SignalAbi

  const HANDLER_DEFAULT := 0
  const HANDLER_IGNORE := 1

  datatype SigAction = SigAction(
    handler: nat, mask: SigSet, siginfo: bool, nodefer: bool, resethand: bool, restorer: nat)

  const DEFAULT_ACTION := SigAction(HANDLER_DEFAULT, {}, false, false, false, 0)

  datatype Disposition = Ignore | DefaultTerminate | DefaultStop | Handler(action: SigAction)
  datatype MaskHow = Block | Unblock | SetMask
  datatype Errno = EINVAL

  datatype SigState = SigState(actions: seq<SigAction>, pending: SigSet, blocked: SigSet, stopped: bool) {
    predicate Valid() {
      |actions| == COUNT && forall n :: n in pending ==> n <= COUNT
    }
  }

  function Initial(): SigState {
    SigState(seq(COUNT, _ => DEFAULT_ACTION), {}, {}, false)
  }

  // ------------------------------------------------------------- transitions

  /** Generating a stop signal discards a pending continue, and the other way round. */
  function Raise(s: SigState, n: Signal): SigState {
    s.(pending :=
      if n in STOP_SIGNALS then s.pending + {n} - {CONTINUE}
      else if n == CONTINUE then s.pending + {n} - STOP_SIGNALS
      else s.pending + {n})
  }

  predicate Resumes(s: SigState, n: Signal) {
    s.stopped && (n == CONTINUE || n == KILL)
  }

  function Generate(s: SigState, n: Signal): SigState {
    Raise(s, n).(stopped := s.stopped && !Resumes(s, n))
  }

  function Deliverable(s: SigState): SigSet {
    s.pending - s.blocked
  }

  function DispositionOf(s: SigState, n: Signal): Disposition
    requires s.Valid()
  {
    var a := s.actions[n - 1];
    if n == KILL then DefaultTerminate
    else if a.handler == HANDLER_IGNORE then Ignore
    else if a.handler != HANDLER_DEFAULT then Handler(a)
    else match DefaultOf(n)
      case Discard => Ignore
      case Terminate => DefaultTerminate
      case Suspend => DefaultStop
  }

  predicate Acceptable(n: Signal, a: SigAction) {
    && n !in KILL_STOP && !a.siginfo
    && (a.handler != HANDLER_DEFAULT && a.handler != HANDLER_IGNORE ==> a.restorer != 0)
  }

  function SetAction(s: SigState, n: Signal, new_: Option<SigAction>): SigState
    requires s.Valid()
  {
    if new_.Some? && Acceptable(n, new_.value) then s.(actions := s.actions[n - 1 := new_.value]) else s
  }

  function ResetForExec(s: SigState): SigState {
    s.(actions := seq(|s.actions|, i requires 0 <= i < |s.actions| =>
      if s.actions[i].handler == HANDLER_IGNORE then s.actions[i] else DEFAULT_ACTION))
  }

  function MaskWith(s: SigState, how: MaskHow, m: SigSet): SigSet {
    match how
    case Block => s.blocked + m - KILL_STOP
    case Unblock => s.blocked - m - KILL_STOP
    case SetMask => m - KILL_STOP
  }

  /** Entering the handler for `n`. */
  function EnterHandler(s: SigState, n: Signal, a: SigAction): SigState
    requires s.Valid()
  {
    s.(blocked := s.blocked + a.mask + (if a.nodefer then {} else {n}) - KILL_STOP,
       actions := if a.resethand then s.actions[n - 1 := DEFAULT_ACTION] else s.actions)
  }

  // ------------------------------------------------------------- one timer tick

  datatype Outcome =
    | Nothing
    | Stopping
    | Terminating(n: Signal)
    | Entering(n: Signal, action: SigAction, oldBlocked: SigSet)

  /** The deliverable signals that are not ignored. */
  function Effective(s: SigState): SigSet
    requires s.Valid()
  {
    set n | n in s.pending && n !in s.blocked && DispositionOf(s, n) != Ignore
  }

  /** A tick acts on the lowest effective signal, after dropping the ignored ones below it. */
  function TickOutcome(s: SigState): Outcome
    requires s.Valid()
  {
    if s.stopped then Stopping
    else if Effective(s) == {} then Nothing
    else
      var n := Lowest(Effective(s));
      match DispositionOf(s, n)
      case DefaultStop => Stopping
      case DefaultTerminate => Terminating(n)
      case Handler(a) => Entering(n, a, s.blocked)
  }

  /** What stays pending once every deliverable signal up to `n` is dealt with. */
  function PendingAbove(s: SigState, n: nat): SigSet {
    set m | m in s.pending && (m in s.blocked || n < m)
  }

  function Tick(s: SigState): SigState
    requires s.Valid()
  {
    if s.stopped then s
    else if Effective(s) == {} then s.(pending := s.pending - Deliverable(s))
    else
      var n := Lowest(Effective(s));
      var s' := s.(pending := PendingAbove(s, n));
      match DispositionOf(s, n)
      case DefaultStop => s'.(stopped := true)
      case DefaultTerminate => s'
      case Handler(a) => EnterHandler(s', n, a)
  }

  // ------------------------------------------------------------- the object behind the lock

  class SignalState {
    var actions: seq<SigAction>
    var pending: SigSet
    var blocked: SigSet
    var stopped: bool

    function View(): SigState
      reads this
    {
      SigState(actions, pending, blocked, stopped)
    }

    constructor ()
      ensures View() == Initial()
    {
      actions := seq(COUNT, _ => DEFAULT_ACTION);
      pending, blocked, stopped := {}, {}, false;
    }

    method SetPending(n: Signal)
      modifies this
      ensures View() == Raise(old(View()), n)
    {
      pending := pending + {n};
      if n in STOP_SIGNALS {
        pending := pending - {CONTINUE};
      } else if n == CONTINUE {
        pending := pending - STOP_SIGNALS;
      }
      assert n !in STOP_SIGNALS && n != CONTINUE ==> pending == old(pending) + {n};
    }

    method Deliver(n: Signal) returns (resumeTasks: bool)
      modifies this
      ensures View() == Generate(old(View()), n)
      ensures resumeTasks == Resumes(old(View()), n)
    {
      SetPending(n);
      resumeTasks := (n == CONTINUE || n == KILL) && stopped;
      if resumeTasks {
        stopped := false;
      }
    }

    method TakeNextDeliverable() returns (r: Option<Signal>)
      requires View().Valid()
      modifies this
      ensures r.None? <==> Deliverable(old(View())) == {}
      ensures r.None? ==> View() == old(View())
      ensures r.Some? ==> r.value == Lowest(Deliverable(old(View())))
      ensures r.Some? ==> View() == old(View()).(pending := old(pending) - {r.value})
    {
      var deliverable: SigSet := pending - blocked;
      if deliverable == {} {
        return None;
      }
      var n := Lowest(deliverable);
      pending := pending - {n};
      return Some(n);
    }

    method Sigaction(n: Signal, new_: Option<SigAction>) returns (r: Result<SigAction, Errno>)
      requires View().Valid()
      modifies this
      ensures View() == SetAction(old(View()), n, new_)
      ensures r == if new_.Some? && !Acceptable(n, new_.value) then Err(EINVAL) else Ok(old(actions)[n - 1])
    {
      var previous := actions[n - 1];
      if new_.Some? {
        var a := new_.value;
        if n == KILL || n == STOP {
          return Err(EINVAL);
        }
        var isCustom := a.handler != HANDLER_DEFAULT && a.handler != HANDLER_IGNORE;
        if isCustom && a.restorer == 0 {
          return Err(EINVAL);
        }
        if a.siginfo {
          return Err(EINVAL);
        }
        actions := actions[n - 1 := a];
      }
      return Ok(previous);
    }

    method ExecReset()
      modifies this
      ensures View() == ResetForExec(old(View()))
    {
      for i := 0 to |actions|
        invariant |actions| == |old(actions)|
        invariant pending == old(pending) && blocked == old(blocked) && stopped == old(stopped)
        invariant forall j :: 0 <= j < i ==> actions[j] == ResetForExec(old(View())).actions[j]
        invariant forall j :: i <= j < |actions| ==> actions[j] == old(actions)[j]
      {
        if actions[i].handler != HANDLER_IGNORE {
          actions := actions[i := DEFAULT_ACTION];
        }
      }
    }

    method Sigprocmask(how: MaskHow, m: Option<SigSet>) returns (previous: SigSet)
      modifies this
      ensures View() == old(View()).(blocked := if m.Some? then MaskWith(old(View()), how, m.value) else old(blocked))
      ensures previous == old(blocked)
    {
      previous := blocked;
      if m.Some? {
        match how {
          case Block => blocked := blocked + m.value;
          case Unblock => blocked := blocked - m.value;
          case SetMask => blocked := m.value;
        }
        blocked := blocked - KILL_STOP;
      }
    }

    method SetBlockedRaw(m: SigSet)
      modifies this
      ensures View() == old(View()).(blocked := m - KILL_STOP)
    {
      blocked := m - KILL_STOP;
    }

    method ApplyHandlerEntry(n: Signal, a: SigAction) returns (oldBlocked: SigSet)
      requires View().Valid()
      modifies this
      ensures View() == EnterHandler(old(View()), n, a)
      ensures oldBlocked == old(blocked)
    {
      oldBlocked := blocked;
      blocked := blocked + a.mask;
      if !a.nodefer {
        blocked := blocked + {n};
      }
      blocked := blocked - KILL_STOP;
      assert a.nodefer ==> oldBlocked + a.mask == oldBlocked + a.mask + {};
      if a.resethand {
        actions := actions[n - 1 := DEFAULT_ACTION];
      }
    }

    /** The delivery loop of a tick that got the lock, up to the stop park and the frame. */
    method DeliverPending() returns (o: Outcome)
      requires View().Valid()
      modifies this
      ensures o == TickOutcome(old(View()))
      ensures View() == Tick(old(View()))
    {
      ghost var s := View();
      while true
        invariant DroppedIgnored(s, View()) && (stopped ==> pending == s.pending)
        decreases pending
      {
        if stopped {
          return Stopping;
        }
        ghost var before := pending;
        var next := TakeNextDeliverable();
        if next.None? {
          IgnoredAll(s, View());
          return Nothing;
        }
        var n := next.value;
        var d := DispositionOf(View(), n);
        if d == Ignore {
          DropOne(s, s.(pending := before), n);
          continue;
        }
        LowestEffective(s, s.(pending := before), n);
        match d
        case DefaultStop =>
          stopped := true;
          return Stopping;
        case DefaultTerminate =>
          return Terminating(n);
        case Handler(a) =>
          var oldBlocked := ApplyHandlerEntry(n, a);
          return Entering(n, a, oldBlocked);
      }
      assert false;
    }
  }

  /** `now` is `s` after dropping some ignored deliverable signals, all below the remaining ones. */
  ghost predicate DroppedIgnored(s: SigState, now: SigState) {
    && s.Valid() && now.Valid() && now == s.(pending := now.pending) && now.pending <= s.pending
    && forall m :: m in s.pending && m !in now.pending ==>
         && m !in s.blocked && DispositionOf(s, m) == Ignore
         && forall n :: n in Deliverable(now) ==> m < n
  }

  lemma DropOne(s: SigState, now: SigState, n: Signal)
    requires DroppedIgnored(s, now) && Deliverable(now) != {} && n == Lowest(Deliverable(now))
    requires DispositionOf(s, n) == Ignore
    ensures DroppedIgnored(s, now.(pending := now.pending - {n}))
  {
    var next := now.(pending := now.pending - {n});
    forall k | k in Deliverable(next) ensures n < k && k in Deliverable(now) {
      assert k in Deliverable(now);
    }
  }

  lemma IgnoredAll(s: SigState, now: SigState)
    requires DroppedIgnored(s, now) && Deliverable(now) == {}
    ensures Effective(s) == {} && now.pending == s.pending - Deliverable(s)
  {
    forall n | n in Effective(s) ensures n in Deliverable(now) {
      assert n in now.pending;
    }
    forall n | n in now.pending ensures n in s.blocked {
      assert n !in Deliverable(now);
    }
  }

  /** The first signal the loop does not ignore is the lowest effective one of the state it began with. */
  lemma LowestEffective(s: SigState, now: SigState, n: Signal)
    requires DroppedIgnored(s, now) && Deliverable(now) != {} && n == Lowest(Deliverable(now))
    requires DispositionOf(s, n) != Ignore
    ensures Effective(s) != {} && n == Lowest(Effective(s))
    ensures now.pending - {n} == PendingAbove(s, n)
  {
    assert n in Effective(s);
    forall m | m in Effective(s) ensures n <= m {
      assert m in Deliverable(now);
    }
    forall m | m in s.pending ensures m in now.pending - {n} <==> m in s.blocked || n < m {
      if m in now.pending && m !in s.blocked {
        assert m in Deliverable(now);
      }
    }
  }
}
