/** Safety of the multi-CPU scheduler over every run.

As in the parking lot, the invariant is kept in parts over the components each talks about.
*/
module SchedulerProof {
  import opened Basics
  import opened Scheduler
  import ParkSlot

  // ------------------------------------------------------------- the invariant

  datatype Place =
    | OnCpu(c: Cpu)
    | IsZombie(c: Cpu)
    | InIdleSlot(c: Cpu)
    | IsPicked(c: Cpu)
    | IsLeaving(c: Cpu)
    | InQueue
    | InCleanup
    | InLot(r: Res)
    | InHand(h: nat)

  type Places = map<Tid, Place>
  type Lot = map<Res, LotSlot>
  type Outs = map<Cpu, Outgoing>

  /** Bookkeeping of the proof: where each task is and whose park a reservation is for. */
  datatype Track = Track(place: Places, parkOf: map<Res, Tid>)

  datatype PlaceView = PlaceView(
    current: map<Cpu, Tid>, idle: map<Cpu, Tid>, zombie: Outs, picked: map<Cpu, Tid>, leaving: Outs,
    runQueue: seq<Tid>, cleanup: seq<Tid>, lot: Lot, hands: map<nat, Tid>, live: set<Tid>)

  datatype PhaseView = PhaseView(
    current: map<Cpu, Tid>, phase: map<Cpu, Phase>, zombie: Outs, picked: map<Cpu, Tid>, leaving: Outs,
    idle: map<Cpu, Tid>, idleTid: map<Cpu, Tid>)

  datatype SavedView = SavedView(zombie: Outs, leaving: Outs, saved: set<Tid>)

  datatype TicketView = TicketView(
    zombie: Outs, leaving: Outs, tickets: map<Tid, Res>, lot: Lot, wakeRights: set<Res>, nextRes: Res)

  datatype IdleView = IdleView(
    idle: map<Cpu, Tid>, idleTid: map<Cpu, Tid>, zombie: Outs, leaving: Outs, tickets: map<Tid, Res>, terminating: set<Tid>)

  function PlacesOf(s: Machine): PlaceView {
    PlaceView(s.current, s.idle, s.zombie, s.picked, s.leaving, s.runQueue, s.cleanup, s.lot, s.hands, s.live)
  }

  function PhasesOf(s: Machine): PhaseView {
    PhaseView(s.current, s.phase, s.zombie, s.picked, s.leaving, s.idle, s.idleTid)
  }

  function SavedOf(s: Machine): SavedView {
    SavedView(s.zombie, s.leaving, s.saved)
  }

  function TicketsOf(s: Machine): TicketView {
    TicketView(s.zombie, s.leaving, s.tickets, s.lot, s.wakeRights, s.nextRes)
  }

  function IdleOf(s: Machine): IdleView {
    IdleView(s.idle, s.idleTid, s.zombie, s.leaving, s.tickets, s.terminating)
  }

  ghost predicate Held(v: PlaceView, p: Place, t: Tid) {
    match p
    case OnCpu(c) => c in v.current && v.current[c] == t
    case IsZombie(c) => c in v.zombie && v.zombie[c].t == t
    case InIdleSlot(c) => c in v.idle && v.idle[c] == t
    case IsPicked(c) => c in v.picked && v.picked[c] == t
    case IsLeaving(c) => c in v.leaving && v.leaving[c].t == t
    case InQueue => t in v.runQueue
    case InCleanup => t in v.cleanup
    case InLot(r) => r in v.lot && v.lot[r] == Occupied(t)
    case InHand(h) => h in v.hands && v.hands[h] == t
  }

  ghost predicate At(place: Places, t: Tid, p: Place) {
    t in place && place[t] == p
  }

  /** Every container agrees with the record of where each live task is. */
  ghost predicate PlacesOk(v: PlaceView, place: Places) {
    && (forall p, t :: Held(v, p, t) <==> At(place, t, p))
    && NoDup(v.runQueue) && NoDup(v.cleanup)
    && (forall t :: t in place <==> t in v.live)
  }

  /** Which locals and slots exist in which phase; a zombie is always routed before the next switch. */
  ghost predicate PhasesOk(v: PhaseView) {
    && (forall c :: c in v.current <==> c in v.phase)
    && (forall c :: c in v.picked <==> c in v.phase && v.phase[c] == HasNext)
    && (forall c :: c in v.leaving <==> c in v.phase && v.phase[c] == HasOld)
    && (forall c :: c in v.zombie ==> c in v.phase && (v.phase[c] == Running || v.phase[c] == Entered))
    && (forall c :: c in v.idle ==> c in v.idleTid && v.idle[c] == v.idleTid[c])
    && (forall c :: c in v.idleTid ==> c in v.current)
  }

  /** A task's stored stack pointer is good exactly where it may be resumed from. */
  ghost predicate SavedOk(v: SavedView, place: Places) {
    && (forall t :: t in place ==>
          match place[t]
          case OnCpu(c) => t in v.saved <==> c in v.leaving
          case IsZombie(c) => c in v.zombie && (t in v.saved <==> v.zombie[c].disposal != Terminate)
          case IsLeaving(_) => t !in v.saved
          case InCleanup => t !in v.saved
          case _ => t in v.saved)
    && (forall t :: t in v.saved ==> t in place)
  }

  ghost predicate Waiting(lot: Lot, parkOf: map<Res, Tid>, r: Res, t: Tid) {
    r in lot && !lot[r].Occupied? && r in parkOf && parkOf[r] == t
  }

  /** The reservation's park right, still unused, travels with task `t`. */
  ghost predicate Pending(v: TicketView, place: Places, r: Res, t: Tid) {
    && t in place
    && match place[t]
       case OnCpu(c) => t in v.tickets && v.tickets[t] == r
       case IsZombie(c) => c in v.zombie && v.zombie[c] == Outgoing(t, Park(r))
       case IsLeaving(c) => c in v.leaving && v.leaving[c] == Outgoing(t, Park(r))
       case _ => false
  }

  /** Every park right is for a slot that waits for its task. */
  ghost predicate ClaimsOk(v: TicketView, w: Track) {
    && (forall t :: t in v.tickets ==>
          && t in w.place && w.place[t].OnCpu? && w.place[t].c !in v.leaving
          && Waiting(v.lot, w.parkOf, v.tickets[t], t))
    && (forall c :: c in v.zombie && v.zombie[c].disposal.Park? ==>
          Waiting(v.lot, w.parkOf, v.zombie[c].disposal.r, v.zombie[c].t))
    && (forall c :: c in v.leaving && v.leaving[c].disposal.Park? ==>
          Waiting(v.lot, w.parkOf, v.leaving[c].disposal.r, v.leaving[c].t))
  }

  /** Every slot holds its task or waits for one that carries the park right. */
  ghost predicate LotOk(v: TicketView, w: Track) {
    forall r :: r in v.lot ==>
      && r < v.nextRes && r in w.parkOf
      && (if v.lot[r].Occupied? then w.parkOf[r] == v.lot[r].t else Pending(v, w.place, r, w.parkOf[r]))
  }

  /** No park right is lost or doubled, and whatever can still be woken has its wake right. */
  ghost predicate TicketsOk(v: TicketView, w: Track) {
    && ClaimsOk(v, w)
    && LotOk(v, w)
    && (forall r :: r in v.wakeRights <==> r in v.lot && v.lot[r] != Unparked)
  }

  /** The idle task has not left its CPU. */
  ghost predicate AtHome(v: IdleView, place: Places, c: Cpu, i: Tid) {
    && i in place
    && match place[i]
       case OnCpu(d) => d == c
       case IsZombie(d) => d == c && c in v.zombie && v.zombie[c] == Outgoing(i, Enqueue)
       case InIdleSlot(d) => d == c
       case IsPicked(d) => d == c
       case IsLeaving(d) => d == c && c in v.leaving && v.leaving[c] == Outgoing(i, Enqueue)
       case _ => false
  }

  ghost predicate IdleOk(v: IdleView, place: Places) {
    && (forall c :: c in v.idleTid ==>
          && AtHome(v, place, c, v.idleTid[c])
          && v.idleTid[c] !in v.tickets && v.idleTid[c] !in v.terminating)
    && (forall t :: t in v.terminating ==> t in place)
  }

  ghost predicate InvAt(s: Machine, w: Track) {
    && PlacesOk(PlacesOf(s), w.place)
    && PhasesOk(PhasesOf(s))
    && SavedOk(SavedOf(s), w.place)
    && TicketsOk(TicketsOf(s), w)
    && IdleOk(IdleOf(s), w.place)
  }

  ghost predicate Inv(s: Machine) {
    exists w :: InvAt(s, w)
  }

  function Moved(w: Track, t: Tid, p: Place): Track {
    w.(place := w.place[t := p])
  }

  /** `t` is at `p`, and no other task is. */
  ghost predicate Only(place: Places, t: Tid, p: Place) {
    && At(place, t, p)
    && forall u :: u in place && place[u] == p ==> u == t
  }

  lemma HeldAt(v: PlaceView, place: Places, p: Place, t: Tid)
    requires PlacesOk(v, place) && Held(v, p, t)
    ensures At(place, t, p)
  {
  }

  lemma HeldOnly(v: PlaceView, place: Places, p: Place, t: Tid)
    requires PlacesOk(v, place) && Held(v, p, t) && !p.InQueue? && !p.InCleanup?
    ensures Only(place, t, p)
  {
    assert At(place, t, p);
    forall u | u in place && place[u] == p
      ensures u == t
    {
      assert At(place, u, p);
    }
  }

  lemma NewNowhere(v: PlaceView, place: Places, t: Tid)
    requires PlacesOk(v, place) && t !in v.live
    ensures t !in place
  {
  }

  // ------------------------------------------------------ steps against the places

  lemma Pushed(q: seq<Tid>, t: Tid)
    requires NoDup(q) && t !in q
    ensures NoDup(q + [t]) && forall u :: u in q + [t] <==> u in q || u == t
  {
  }

  lemma Popped(q: seq<Tid>)
    requires NoDup(q) && |q| > 0
    ensures NoDup(q[1..]) && forall u :: u in q[1..] <==> u in q && u != q[0]
  {
    assert q == [q[0]] + q[1..];
  }

  lemma PlacesBoot(v: PlaceView, place: Places, c: Cpu, t: Tid)
    requires PlacesOk(v, place) && c !in v.current && t !in v.live
    ensures PlacesOk(v.(current := v.current[c := t], live := v.live + {t}), place[t := OnCpu(c)])
  {
    var v', place' := v.(current := v.current[c := t], live := v.live + {t}), place[t := OnCpu(c)];
    forall p, u
      ensures Held(v', p, u) <==> At(place', u, p)
    {
      assert Held(v, p, u) <==> At(place, u, p);
    }
  }

  lemma PlacesCreate(v: PlaceView, place: Places, h: nat, t: Tid)
    requires PlacesOk(v, place) && h !in v.hands && t !in v.live
    ensures PlacesOk(v.(hands := v.hands[h := t], live := v.live + {t}), place[t := InHand(h)])
  {
    var v', place' := v.(hands := v.hands[h := t], live := v.live + {t}), place[t := InHand(h)];
    forall p, u
      ensures Held(v', p, u) <==> At(place', u, p)
    {
      assert Held(v, p, u) <==> At(place, u, p);
    }
  }

  lemma PlacesSetIdle(v: PlaceView, place: Places, c: Cpu, t: Tid)
    requires PlacesOk(v, place) && c !in v.idle && t !in v.live
    ensures PlacesOk(v.(idle := v.idle[c := t], live := v.live + {t}), place[t := InIdleSlot(c)])
  {
    var v', place' := v.(idle := v.idle[c := t], live := v.live + {t}), place[t := InIdleSlot(c)];
    forall p, u
      ensures Held(v', p, u) <==> At(place', u, p)
    {
      assert Held(v, p, u) <==> At(place, u, p);
    }
  }

  lemma PlacesEnqueueHand(v: PlaceView, place: Places, h: nat)
    requires PlacesOk(v, place) && h in v.hands
    ensures PlacesOk(v.(hands := v.hands - {h}, runQueue := v.runQueue + [v.hands[h]]), place[v.hands[h] := InQueue])
  {
    var t := v.hands[h];
    var v', place' := v.(hands := v.hands - {h}, runQueue := v.runQueue + [t]), place[t := InQueue];
    HeldAt(v, place, InHand(h), t);
    assert !Held(v, InQueue, t);
    Pushed(v.runQueue, t);
    forall p, u
      ensures Held(v', p, u) <==> At(place', u, p)
    {
      assert Held(v, p, u) <==> At(place, u, p);
    }
  }

  lemma PlacesDrop(v: PlaceView, place: Places)
    requires PlacesOk(v, place) && |v.cleanup| > 0
    ensures PlacesOk(v.(cleanup := v.cleanup[1..], live := v.live - {v.cleanup[0]}), place - {v.cleanup[0]})
  {
    var t := v.cleanup[0];
    var v', place' := v.(cleanup := v.cleanup[1..], live := v.live - {t}), place - {t};
    HeldAt(v, place, InCleanup, t);
    Popped(v.cleanup);
    forall p, u
      ensures Held(v', p, u) <==> At(place', u, p)
    {
      assert Held(v, p, u) <==> At(place, u, p);
    }
  }

  /** A slot that holds no task, before and after. */
  lemma PlacesLot(v: PlaceView, place: Places, r: Res, x: LotSlot)
    requires PlacesOk(v, place) && (r in v.lot ==> !v.lot[r].Occupied?) && !x.Occupied?
    ensures PlacesOk(v.(lot := v.lot[r := x]), place)
  {
    forall p, u
      ensures Held(v.(lot := v.lot[r := x]), p, u) <==> At(place, u, p)
    {
      assert Held(v, p, u) <==> At(place, u, p);
    }
  }

  lemma PlacesBounce(v: PlaceView, place: Places, r: Res)
    requires PlacesOk(v, place) && (r in v.lot ==> !v.lot[r].Occupied?)
    ensures PlacesOk(v.(lot := v.lot - {r}), place)
  {
    forall p, u
      ensures Held(v.(lot := v.lot - {r}), p, u) <==> At(place, u, p)
    {
      assert Held(v, p, u) <==> At(place, u, p);
    }
  }

  lemma PlacesWake(v: PlaceView, place: Places, r: Res, h: nat)
    requires PlacesOk(v, place) && r in v.lot && v.lot[r].Occupied? && h !in v.hands
    ensures PlacesOk(v.(lot := v.lot - {r}, hands := v.hands[h := v.lot[r].t]), place[v.lot[r].t := InHand(h)])
  {
    var t := v.lot[r].t;
    var v', place' := v.(lot := v.lot - {r}, hands := v.hands[h := t]), place[t := InHand(h)];
    HeldAt(v, place, InLot(r), t);
    forall p, u
      ensures Held(v', p, u) <==> At(place', u, p)
    {
      assert Held(v, p, u) <==> At(place, u, p);
    }
  }

  lemma PlacesRouteIdle(v: PlaceView, place: Places, c: Cpu)
    requires PlacesOk(v, place) && c in v.zombie && c !in v.idle
    ensures PlacesOk(v.(zombie := v.zombie - {c}, idle := v.idle[c := v.zombie[c].t]), place[v.zombie[c].t := InIdleSlot(c)])
  {
    var t := v.zombie[c].t;
    var v', place' := v.(zombie := v.zombie - {c}, idle := v.idle[c := t]), place[t := InIdleSlot(c)];
    HeldAt(v, place, IsZombie(c), t);
    forall p, u
      ensures Held(v', p, u) <==> At(place', u, p)
    {
      assert Held(v, p, u) <==> At(place, u, p);
    }
  }

  lemma PlacesRouteQueue(v: PlaceView, place: Places, c: Cpu)
    requires PlacesOk(v, place) && c in v.zombie
    ensures PlacesOk(v.(zombie := v.zombie - {c}, runQueue := v.runQueue + [v.zombie[c].t]), place[v.zombie[c].t := InQueue])
  {
    var t := v.zombie[c].t;
    var v', place' := v.(zombie := v.zombie - {c}, runQueue := v.runQueue + [t]), place[t := InQueue];
    HeldAt(v, place, IsZombie(c), t);
    assert !Held(v, InQueue, t);
    Pushed(v.runQueue, t);
    forall p, u
      ensures Held(v', p, u) <==> At(place', u, p)
    {
      assert Held(v, p, u) <==> At(place, u, p);
    }
  }

  lemma PlacesRouteLot(v: PlaceView, place: Places, c: Cpu, r: Res)
    requires PlacesOk(v, place) && c in v.zombie && (r in v.lot ==> !v.lot[r].Occupied?)
    ensures PlacesOk(v.(zombie := v.zombie - {c}, lot := v.lot[r := Occupied(v.zombie[c].t)]), place[v.zombie[c].t := InLot(r)])
  {
    var t := v.zombie[c].t;
    var v', place' := v.(zombie := v.zombie - {c}, lot := v.lot[r := Occupied(t)]), place[t := InLot(r)];
    HeldAt(v, place, IsZombie(c), t);
    forall p, u
      ensures Held(v', p, u) <==> At(place', u, p)
    {
      assert Held(v, p, u) <==> At(place, u, p);
    }
  }

  lemma PlacesRouteCleanup(v: PlaceView, place: Places, c: Cpu)
    requires PlacesOk(v, place) && c in v.zombie
    ensures PlacesOk(v.(zombie := v.zombie - {c}, cleanup := v.cleanup + [v.zombie[c].t]), place[v.zombie[c].t := InCleanup])
  {
    var t := v.zombie[c].t;
    var v', place' := v.(zombie := v.zombie - {c}, cleanup := v.cleanup + [t]), place[t := InCleanup];
    HeldAt(v, place, IsZombie(c), t);
    assert !Held(v, InCleanup, t);
    Pushed(v.cleanup, t);
    forall p, u
      ensures Held(v', p, u) <==> At(place', u, p)
    {
      assert Held(v, p, u) <==> At(place, u, p);
    }
  }

  lemma PlacesPickQueue(v: PlaceView, place: Places, c: Cpu)
    requires PlacesOk(v, place) && c !in v.picked && |v.runQueue| > 0
    ensures PlacesOk(v.(picked := v.picked[c := v.runQueue[0]], runQueue := v.runQueue[1..]), place[v.runQueue[0] := IsPicked(c)])
  {
    var t := v.runQueue[0];
    var v', place' := v.(picked := v.picked[c := t], runQueue := v.runQueue[1..]), place[t := IsPicked(c)];
    HeldAt(v, place, InQueue, t);
    Popped(v.runQueue);
    forall p, u
      ensures Held(v', p, u) <==> At(place', u, p)
    {
      assert Held(v, p, u) <==> At(place, u, p);
    }
  }

  lemma PlacesPickIdle(v: PlaceView, place: Places, c: Cpu)
    requires PlacesOk(v, place) && c !in v.picked && c in v.idle
    ensures PlacesOk(v.(picked := v.picked[c := v.idle[c]], idle := v.idle - {c}), place[v.idle[c] := IsPicked(c)])
  {
    var t := v.idle[c];
    var v', place' := v.(picked := v.picked[c := t], idle := v.idle - {c}), place[t := IsPicked(c)];
    HeldAt(v, place, InIdleSlot(c), t);
    forall p, u
      ensures Held(v', p, u) <==> At(place', u, p)
    {
      assert Held(v, p, u) <==> At(place, u, p);
    }
  }

  lemma PlacesLeave(v: PlaceView, place: Places, c: Cpu, d: Disposal)
    requires PlacesOk(v, place) && c in v.current && c in v.picked && c !in v.leaving
    ensures PlacesOk(v.(current := v.current[c := v.picked[c]], picked := v.picked - {c}, leaving := v.leaving[c := Outgoing(v.current[c], d)]),
                     place[v.current[c] := IsLeaving(c)][v.picked[c] := OnCpu(c)])
  {
    var t, n := v.current[c], v.picked[c];
    var v' := v.(current := v.current[c := n], picked := v.picked - {c}, leaving := v.leaving[c := Outgoing(t, d)]);
    var place' := place[t := IsLeaving(c)][n := OnCpu(c)];
    HeldAt(v, place, OnCpu(c), t);
    HeldAt(v, place, IsPicked(c), n);
    forall p, u
      ensures Held(v', p, u) <==> At(place', u, p)
    {
      assert Held(v, p, u) <==> At(place, u, p);
    }
  }

  lemma PlacesSwitch(v: PlaceView, place: Places, c: Cpu)
    requires PlacesOk(v, place) && c in v.leaving && c !in v.zombie
    ensures PlacesOk(v.(zombie := v.zombie[c := v.leaving[c]], leaving := v.leaving - {c}), place[v.leaving[c].t := IsZombie(c)])
  {
    var t := v.leaving[c].t;
    var v', place' := v.(zombie := v.zombie[c := v.leaving[c]], leaving := v.leaving - {c}), place[t := IsZombie(c)];
    HeldAt(v, place, IsLeaving(c), t);
    forall p, u
      ensures Held(v', p, u) <==> At(place', u, p)
    {
      assert Held(v, p, u) <==> At(place, u, p);
    }
  }

  // --------------------------------------------- steps against the saved stack pointers

  lemma SavedAdd(v: SavedView, place: Places, t: Tid, p: Place)
    requires SavedOk(v, place) && t !in place && (p.InHand? || p.InIdleSlot?)
    ensures SavedOk(v.(saved := v.saved + {t}), place[t := p])
  {
  }

  lemma SavedBoot(v: SavedView, place: Places, t: Tid, c: Cpu)
    requires SavedOk(v, place) && t !in place && c !in v.leaving
    ensures SavedOk(v, place[t := OnCpu(c)])
  {
  }

  lemma SavedMove(v: SavedView, place: Places, t: Tid, from: Place, p: Place)
    requires SavedOk(v, place) && At(place, t, from) && (p.InHand? || p.InQueue? || p.IsPicked?)
    requires from.InHand? || from.InQueue? || from.InIdleSlot? || from.InLot?
    ensures SavedOk(v, place[t := p])
  {
  }

  lemma SavedDrop(v: SavedView, place: Places, t: Tid)
    requires SavedOk(v, place) && At(place, t, InCleanup)
    ensures SavedOk(v, place - {t})
  {
  }

  lemma SavedRoute(v: SavedView, place: Places, c: Cpu, p: Place)
    requires SavedOk(v, place) && c in v.zombie && Only(place, v.zombie[c].t, IsZombie(c))
    requires if v.zombie[c].disposal == Terminate then p.InCleanup? else p.InQueue? || p.InIdleSlot? || p.InLot?
    ensures SavedOk(v.(zombie := v.zombie - {c}), place[v.zombie[c].t := p])
  {
  }

  lemma SavedLeave(v: SavedView, place: Places, c: Cpu, t: Tid, n: Tid, d: Disposal)
    requires SavedOk(v, place) && Only(place, t, OnCpu(c)) && At(place, n, IsPicked(c)) && c !in v.leaving
    ensures SavedOk(v.(leaving := v.leaving[c := Outgoing(t, d)]), place[t := IsLeaving(c)][n := OnCpu(c)])
  {
  }

  lemma SavedSwitch(v: SavedView, place: Places, c: Cpu, n: Tid)
    requires SavedOk(v, place) && c in v.leaving && c !in v.zombie
    requires At(place, v.leaving[c].t, IsLeaving(c)) && Only(place, n, OnCpu(c))
    ensures
      var stored := if v.leaving[c].disposal == Terminate then v.saved else v.saved + {v.leaving[c].t};
      SavedOk(v.(zombie := v.zombie[c := v.leaving[c]], leaving := v.leaving - {c}, saved := stored - {n}),
              place[v.leaving[c].t := IsZombie(c)])
  {
  }

  // ------------------------------------------------------ steps against the tickets

  /** A task with no unused park right moves to any place. */
  lemma TicketsMove(v: TicketView, w: Track, t: Tid, p: Place)
    requires TicketsOk(v, w)
    requires t in w.place ==> w.place[t].InHand? || w.place[t].InQueue? || w.place[t].InIdleSlot?
    ensures TicketsOk(v, Moved(w, t, p))
  {
  }

  lemma TicketsDrop(v: TicketView, w: Track, t: Tid)
    requires TicketsOk(v, w) && At(w.place, t, InCleanup)
    ensures TicketsOk(v, w.(place := w.place - {t}))
  {
  }

  lemma TicketsFresh(v: TicketView, w: Track)
    requires TicketsOk(v, w)
    ensures v.nextRes !in v.lot && v.nextRes !in v.wakeRights
  {
  }

  function Blocked(v: TicketView, t: Tid): TicketView {
    v.(lot := v.lot[v.nextRes := Reserved], tickets := v.tickets[t := v.nextRes],
       wakeRights := v.wakeRights + {v.nextRes}, nextRes := v.nextRes + 1)
  }

  lemma ClaimsBlock(v: TicketView, w: Track, c: Cpu, t: Tid)
    requires ClaimsOk(v, w) && v.nextRes !in v.lot && At(w.place, t, OnCpu(c)) && c !in v.leaving && t !in v.tickets
    ensures ClaimsOk(Blocked(v, t), w.(parkOf := w.parkOf[v.nextRes := t]))
  {
  }

  lemma LotBlock(v: TicketView, w: Track, c: Cpu, t: Tid)
    requires LotOk(v, w) && v.nextRes !in v.lot && At(w.place, t, OnCpu(c)) && c !in v.leaving && t !in v.tickets
    ensures LotOk(Blocked(v, t), w.(parkOf := w.parkOf[v.nextRes := t]))
  {
  }

  lemma TicketsBlock(v: TicketView, w: Track, c: Cpu, t: Tid)
    requires TicketsOk(v, w) && At(w.place, t, OnCpu(c)) && c !in v.leaving && t !in v.tickets
    ensures TicketsOk(Blocked(v, t), w.(parkOf := w.parkOf[v.nextRes := t]))
  {
    hide ClaimsOk, LotOk;
    TicketsFresh(v, w);
    ClaimsBlock(v, w, c, t);
    LotBlock(v, w, c, t);
  }

  lemma ClaimsUnpark(v: TicketView, w: Track, r: Res)
    requires ClaimsOk(v, w) && r in v.lot
    ensures ClaimsOk(v.(lot := v.lot[r := Unparked], wakeRights := v.wakeRights - {r}), w)
  {
  }

  lemma LotUnpark(v: TicketView, w: Track, r: Res)
    requires LotOk(v, w) && r in v.lot && !v.lot[r].Occupied?
    ensures LotOk(v.(lot := v.lot[r := Unparked], wakeRights := v.wakeRights - {r}), w)
  {
  }

  lemma TicketsWakeEarly(v: TicketView, w: Track, r: Res)
    requires TicketsOk(v, w) && r in v.wakeRights && !(r in v.lot && v.lot[r].Occupied?)
    ensures r in v.lot
    ensures TicketsOk(v.(lot := v.lot[r := Unparked], wakeRights := v.wakeRights - {r}), w)
  {
    hide ClaimsOk, LotOk;
    ClaimsUnpark(v, w, r);
    LotUnpark(v, w, r);
  }

  lemma TicketsWake(v: TicketView, w: Track, r: Res, h: nat)
    requires TicketsOk(v, w) && r in v.lot && v.lot[r].Occupied? && At(w.place, v.lot[r].t, InLot(r))
    ensures TicketsOk(v.(lot := v.lot - {r}, wakeRights := v.wakeRights - {r}), Moved(w, v.lot[r].t, InHand(h)))
  {
  }

  lemma TicketsRoute(v: TicketView, w: Track, c: Cpu, p: Place)
    requires TicketsOk(v, w) && c in v.zombie && !v.zombie[c].disposal.Park? && At(w.place, v.zombie[c].t, IsZombie(c))
    ensures TicketsOk(v.(zombie := v.zombie - {c}), Moved(w, v.zombie[c].t, p))
  {
  }

  ghost predicate OutsPlaced(zombie: Outs, leaving: Outs, place: Places) {
    && (forall c :: c in zombie ==> At(place, zombie[c].t, IsZombie(c)))
    && (forall c :: c in leaving ==> At(place, leaving[c].t, IsLeaving(c)))
  }

  lemma PlacesOuts(v: PlaceView, place: Places)
    requires PlacesOk(v, place)
    ensures OutsPlaced(v.zombie, v.leaving, place)
  {
    forall c | c in v.zombie
      ensures At(place, v.zombie[c].t, IsZombie(c))
    {
      HeldAt(v, place, IsZombie(c), v.zombie[c].t);
    }
    forall c | c in v.leaving
      ensures At(place, v.leaving[c].t, IsLeaving(c))
    {
      HeldAt(v, place, IsLeaving(c), v.leaving[c].t);
    }
  }

  lemma TicketsPark(v: TicketView, w: Track, c: Cpu, r: Res)
    requires TicketsOk(v, w) && OutsPlaced(v.zombie, v.leaving, w.place)
    requires c in v.zombie && v.zombie[c].disposal == Park(r) && r in v.lot && v.lot[r] == Reserved
    ensures TicketsOk(v.(zombie := v.zombie - {c}, lot := v.lot[r := Occupied(v.zombie[c].t)]), Moved(w, v.zombie[c].t, InLot(r)))
  {
  }

  lemma ClaimsBounce(v: TicketView, w: Track, c: Cpu, r: Res)
    requires TicketsOk(v, w) && OutsPlaced(v.zombie, v.leaving, w.place)
    requires c in v.zombie && v.zombie[c].disposal == Park(r)
    ensures ClaimsOk(v.(zombie := v.zombie - {c}, lot := v.lot - {r}), Moved(w, v.zombie[c].t, InQueue))
  {
  }

  lemma LotBounce(v: TicketView, w: Track, c: Cpu, r: Res)
    requires ClaimsOk(v, w) && LotOk(v, w) && c in v.zombie && v.zombie[c].disposal == Park(r)
    requires At(w.place, v.zombie[c].t, IsZombie(c))
    ensures LotOk(v.(zombie := v.zombie - {c}, lot := v.lot - {r}), Moved(w, v.zombie[c].t, InQueue))
  {
  }

  lemma ParkWaits(v: TicketView, w: Track, c: Cpu, r: Res)
    requires ClaimsOk(v, w) && c in v.zombie && v.zombie[c].disposal == Park(r)
    ensures r in v.lot && !v.lot[r].Occupied?
  {
  }

  lemma TicketsBounce(v: TicketView, w: Track, c: Cpu, r: Res)
    requires TicketsOk(v, w) && OutsPlaced(v.zombie, v.leaving, w.place)
    requires c in v.zombie && v.zombie[c].disposal == Park(r) && !(r in v.lot && v.lot[r] == Reserved)
    ensures r in v.lot && v.lot[r] == Unparked
    ensures TicketsOk(v.(zombie := v.zombie - {c}, lot := v.lot - {r}), Moved(w, v.zombie[c].t, InQueue))
  {
    hide ClaimsOk, LotOk;
    ParkWaits(v, w, c, r);
    ClaimsBounce(v, w, c, r);
    LotBounce(v, w, c, r);
  }

  lemma TicketsLeave(v: TicketView, w: Track, c: Cpu, t: Tid, n: Tid, d: Disposal)
    requires TicketsOk(v, w) && Only(w.place, t, OnCpu(c)) && At(w.place, n, IsPicked(c)) && c !in v.leaving
    requires if t in v.tickets then d == Park(v.tickets[t]) else !d.Park?
    ensures TicketsOk(v.(leaving := v.leaving[c := Outgoing(t, d)], tickets := v.tickets - {t}),
                      Moved(Moved(w, t, IsLeaving(c)), n, OnCpu(c)))
  {
  }

  lemma TicketsSwitch(v: TicketView, w: Track, c: Cpu)
    requires TicketsOk(v, w) && c in v.leaving && c !in v.zombie && Only(w.place, v.leaving[c].t, IsLeaving(c))
    ensures TicketsOk(v.(zombie := v.zombie[c := v.leaving[c]], leaving := v.leaving - {c}), Moved(w, v.leaving[c].t, IsZombie(c)))
  {
  }

  // ------------------------------------------------------ steps against the idle tasks

  lemma IdleMove(v: IdleView, place: Places, t: Tid, p: Place)
    requires IdleOk(v, place) && (t !in place || place[t].InHand? || place[t].InLot?)
    ensures IdleOk(v, place[t := p])
  {
  }

  lemma IdleSet(v: IdleView, place: Places, c: Cpu, t: Tid)
    requires IdleOk(v, place) && t !in place && t !in v.tickets
    ensures IdleOk(v.(idle := v.idle[c := t], idleTid := v.idleTid[c := t]), place[t := InIdleSlot(c)])
  {
  }

  lemma IdleDrop(v: IdleView, place: Places, t: Tid)
    requires IdleOk(v, place) && At(place, t, InCleanup)
    ensures IdleOk(v.(terminating := v.terminating - {t}), place - {t})
  {
  }

  lemma IdleTerminate(v: IdleView, place: Places, t: Tid, on: bool)
    requires IdleOk(v, place) && t in place && !IsIdle(v.idleTid, t)
    ensures IdleOk(v.(terminating := if on then v.terminating + {t} else v.terminating - {t}), place)
  {
  }

  lemma IdleBlock(v: IdleView, place: Places, t: Tid, r: Res)
    requires IdleOk(v, place) && !IsIdle(v.idleTid, t)
    ensures IdleOk(v.(tickets := v.tickets[t := r]), place)
  {
  }

  /** Routing: an idle zombie goes to the idle slot of its own CPU. */
  lemma IdleRoute(v: IdleView, place: Places, c: Cpu, p: Place, idle': map<Cpu, Tid>)
    requires IdleOk(v, place) && c in v.zombie && Only(place, v.zombie[c].t, IsZombie(c))
    requires c in v.idleTid && v.idleTid[c] == v.zombie[c].t ==> p == InIdleSlot(c)
    ensures IdleOk(v.(zombie := v.zombie - {c}, idle := idle'), place[v.zombie[c].t := p])
  {
  }

  lemma IdlePick(v: IdleView, place: Places, c: Cpu, t: Tid, from: Place, idle': map<Cpu, Tid>)
    requires IdleOk(v, place) && At(place, t, from) && (from == InQueue || from == InIdleSlot(c))
    ensures IdleOk(v.(idle := idle'), place[t := IsPicked(c)])
  {
  }

  lemma IdleLeave(v: IdleView, place: Places, c: Cpu, t: Tid, n: Tid, d: Disposal)
    requires IdleOk(v, place) && At(place, t, OnCpu(c)) && At(place, n, IsPicked(c)) && c !in v.leaving
    requires t !in v.tickets && t !in v.terminating ==> d == Enqueue
    ensures IdleOk(v.(leaving := v.leaving[c := Outgoing(t, d)], tickets := v.tickets - {t}),
                   place[t := IsLeaving(c)][n := OnCpu(c)])
  {
  }

  lemma IdleSwitch(v: IdleView, place: Places, c: Cpu)
    requires IdleOk(v, place) && c in v.leaving && c !in v.zombie && Only(place, v.leaving[c].t, IsLeaving(c))
    ensures IdleOk(v.(zombie := v.zombie[c := v.leaving[c]], leaving := v.leaving - {c}), place[v.leaving[c].t := IsZombie(c)])
  {
  }

  // ---------------------------------------------------------- steps against the phases

  lemma PhasesBoot(v: PhaseView, c: Cpu, t: Tid)
    requires PhasesOk(v) && c !in v.current
    ensures c !in v.leaving
    ensures PhasesOk(v.(current := v.current[c := t], phase := v.phase[c := Running]))
  {
  }

  lemma PhasesSetIdle(v: PhaseView, c: Cpu, t: Tid)
    requires PhasesOk(v) && c in v.current && c !in v.idleTid
    ensures c !in v.idle
    ensures PhasesOk(v.(idle := v.idle[c := t], idleTid := v.idleTid[c := t]))
  {
  }

  lemma PhasesRunning(v: PhaseView, c: Cpu)
    requires PhasesOk(v) && c in v.phase && v.phase[c] == Running
    ensures c !in v.leaving
    ensures PhasesOk(v.(phase := v.phase[c := Entered]))
  {
  }

  lemma PhasesRoute(v: PhaseView, c: Cpu)
    requires PhasesOk(v) && c in v.phase && v.phase[c] == Entered
    ensures PhasesOk(v.(zombie := v.zombie - {c}, phase := v.phase[c := Routed]))
  {
  }

  lemma PhasesRouteIdle(v: PhaseView, c: Cpu)
    requires PhasesOk(v) && c in v.phase && v.phase[c] == Entered && c in v.idleTid
    ensures PhasesOk(v.(zombie := v.zombie - {c}, idle := v.idle[c := v.idleTid[c]], phase := v.phase[c := Routed]))
  {
  }

  lemma PhasesPickNone(v: PhaseView, c: Cpu)
    requires PhasesOk(v) && c in v.phase && v.phase[c] == Routed
    ensures PhasesOk(v.(phase := v.phase[c := NoneQueued]))
  {
  }

  lemma PhasesReturn(v: PhaseView, c: Cpu)
    requires PhasesOk(v) && c in v.phase && v.phase[c] == NoneQueued
    ensures PhasesOk(v.(phase := v.phase[c := Running]))
  {
  }

  lemma PhasesPickQueue(v: PhaseView, c: Cpu, t: Tid)
    requires PhasesOk(v) && c in v.phase && v.phase[c] == Routed
    ensures c !in v.picked
    ensures PhasesOk(v.(picked := v.picked[c := t], phase := v.phase[c := HasNext]))
  {
  }

  lemma PhasesPickIdle(v: PhaseView, c: Cpu, t: Tid)
    requires PhasesOk(v) && c in v.phase && v.phase[c] == NoneQueued
    ensures c !in v.picked
    ensures PhasesOk(v.(picked := v.picked[c := t], idle := v.idle - {c}, phase := v.phase[c := HasNext]))
  {
  }

  lemma PhasesLeave(v: PhaseView, c: Cpu, n: Tid, out: Outgoing)
    requires PhasesOk(v) && c in v.picked
    ensures c !in v.leaving
    ensures PhasesOk(v.(current := v.current[c := n], picked := v.picked - {c}, leaving := v.leaving[c := out], phase := v.phase[c := HasOld]))
  {
  }

  lemma PhasesSwitch(v: PhaseView, c: Cpu, out: Outgoing)
    requires PhasesOk(v) && c in v.leaving
    ensures c !in v.zombie
    ensures PhasesOk(v.(zombie := v.zombie[c := out], leaving := v.leaving - {c}, phase := v.phase[c := Running]))
  {
  }

  // -------------------------------------------------------------- the whole steps

  lemma InitialInv()
    ensures Inv(Initial())
  {
    assert InvAt(Initial(), Track(map[], map[]));
  }

  lemma BootInv(s: Machine, w: Track, c: Cpu, t: Tid)
    requires InvAt(s, w) && Enabled(s, DoBoot(c, t))
    ensures InvAt(Apply(s, DoBoot(c, t)), Moved(w, t, OnCpu(c)))
  {
    hide PlacesOk, PhasesOk, SavedOk, TicketsOk, IdleOk;
    NewNowhere(PlacesOf(s), w.place, t);
    PhasesBoot(PhasesOf(s), c, t);
    PlacesBoot(PlacesOf(s), w.place, c, t);
    SavedBoot(SavedOf(s), w.place, t, c);
    TicketsMove(TicketsOf(s), w, t, OnCpu(c));
    IdleMove(IdleOf(s), w.place, t, OnCpu(c));
  }

  lemma CreateInv(s: Machine, w: Track, h: nat, t: Tid)
    requires InvAt(s, w) && Enabled(s, DoCreate(h, t))
    ensures InvAt(Apply(s, DoCreate(h, t)), Moved(w, t, InHand(h)))
  {
    hide PlacesOk, PhasesOk, SavedOk, TicketsOk, IdleOk;
    NewNowhere(PlacesOf(s), w.place, t);
    PlacesCreate(PlacesOf(s), w.place, h, t);
    SavedAdd(SavedOf(s), w.place, t, InHand(h));
    TicketsMove(TicketsOf(s), w, t, InHand(h));
    IdleMove(IdleOf(s), w.place, t, InHand(h));
  }

  lemma NewHasNoTicket(v: TicketView, w: Track, t: Tid)
    requires TicketsOk(v, w) && t !in w.place
    ensures t !in v.tickets
  {
  }

  lemma SetIdleTaskInv(s: Machine, w: Track, c: Cpu, t: Tid)
    requires InvAt(s, w) && Enabled(s, DoSetIdleTask(c, t))
    ensures InvAt(Apply(s, DoSetIdleTask(c, t)), Moved(w, t, InIdleSlot(c)))
  {
    hide PlacesOk, PhasesOk, SavedOk, TicketsOk, IdleOk;
    NewNowhere(PlacesOf(s), w.place, t);
    PhasesSetIdle(PhasesOf(s), c, t);
    PlacesSetIdle(PlacesOf(s), w.place, c, t);
    SavedAdd(SavedOf(s), w.place, t, InIdleSlot(c));
    TicketsMove(TicketsOf(s), w, t, InIdleSlot(c));
    NewHasNoTicket(TicketsOf(s), w, t);
    IdleSet(IdleOf(s), w.place, c, t);
  }

  lemma EnqueueHandInv(s: Machine, w: Track, h: nat)
    requires InvAt(s, w) && Enabled(s, DoEnqueueHand(h))
    ensures InvAt(Apply(s, DoEnqueueHand(h)), Moved(w, s.hands[h], InQueue))
  {
    hide PlacesOk, PhasesOk, SavedOk, TicketsOk, IdleOk;
    var t := s.hands[h];
    HeldAt(PlacesOf(s), w.place, InHand(h), t);
    PlacesEnqueueHand(PlacesOf(s), w.place, h);
    SavedMove(SavedOf(s), w.place, t, InHand(h), InQueue);
    TicketsMove(TicketsOf(s), w, t, InQueue);
    IdleMove(IdleOf(s), w.place, t, InQueue);
  }

  lemma DropCorpseInv(s: Machine, w: Track)
    requires InvAt(s, w) && Enabled(s, DoDropCorpse)
    ensures InvAt(Apply(s, DoDropCorpse), w.(place := w.place - {s.cleanup[0]}))
  {
    hide PlacesOk, PhasesOk, SavedOk, TicketsOk, IdleOk;
    HeldAt(PlacesOf(s), w.place, InCleanup, s.cleanup[0]);
    PlacesDrop(PlacesOf(s), w.place);
    SavedDrop(SavedOf(s), w.place, s.cleanup[0]);
    TicketsDrop(TicketsOf(s), w, s.cleanup[0]);
    IdleDrop(IdleOf(s), w.place, s.cleanup[0]);
  }

  lemma LivePlaced(v: PlaceView, place: Places, t: Tid)
    requires PlacesOk(v, place) && t in v.live
    ensures t in place
  {
  }

  lemma SetTerminateInv(s: Machine, w: Track, t: Tid, on: bool)
    requires InvAt(s, w) && Enabled(s, DoSetTerminate(t, on))
    ensures InvAt(Apply(s, DoSetTerminate(t, on)), w)
  {
    hide PlacesOk, PhasesOk, SavedOk, TicketsOk, IdleOk;
    LivePlaced(PlacesOf(s), w.place, t);
    IdleTerminate(IdleOf(s), w.place, t, on);
  }

  lemma BlockInv(s: Machine, w: Track, c: Cpu)
    requires InvAt(s, w) && Enabled(s, DoBlock(c))
    ensures InvAt(Apply(s, DoBlock(c)), w.(parkOf := w.parkOf[s.nextRes := s.current[c]]))
  {
    hide PlacesOk, PhasesOk, SavedOk, TicketsOk, IdleOk;
    PhasesRunning(PhasesOf(s), c);
    HeldAt(PlacesOf(s), w.place, OnCpu(c), s.current[c]);
    TicketsFresh(TicketsOf(s), w);
    TicketsBlock(TicketsOf(s), w, c, s.current[c]);
    PlacesLot(PlacesOf(s), w.place, s.nextRes, Reserved);
    IdleBlock(IdleOf(s), w.place, s.current[c], s.nextRes);
  }

  lemma WakeParkedInv(s: Machine, w: Track, r: Res, h: nat) returns (w': Track)
    requires InvAt(s, w) && Enabled(s, DoWake(r, h)) && r in s.lot && s.lot[r].Occupied?
    ensures InvAt(Apply(s, DoWake(r, h)), w')
  {
    hide PlacesOk, PhasesOk, SavedOk, TicketsOk, IdleOk;
    var t := s.lot[r].t;
    HeldAt(PlacesOf(s), w.place, InLot(r), t);
    PlacesWake(PlacesOf(s), w.place, r, h);
    SavedMove(SavedOf(s), w.place, t, InLot(r), InHand(h));
    TicketsWake(TicketsOf(s), w, r, h);
    IdleMove(IdleOf(s), w.place, t, InHand(h));
    w' := Moved(w, t, InHand(h));
  }

  lemma WakeEarlyInv(s: Machine, w: Track, r: Res, h: nat)
    requires InvAt(s, w) && Enabled(s, DoWake(r, h)) && !(r in s.lot && s.lot[r].Occupied?)
    ensures InvAt(Apply(s, DoWake(r, h)), w)
  {
    hide PlacesOk, PhasesOk, SavedOk, TicketsOk, IdleOk;
    TicketsWakeEarly(TicketsOf(s), w, r);
    PlacesLot(PlacesOf(s), w.place, r, Unparked);
  }

  lemma EnterInv(s: Machine, w: Track, c: Cpu)
    requires InvAt(s, w) && Enabled(s, DoEnter(c))
    ensures InvAt(Apply(s, DoEnter(c)), w)
  {
    hide PlacesOk, PhasesOk, SavedOk, TicketsOk, IdleOk;
    PhasesRunning(PhasesOf(s), c);
  }

  lemma IdleSlotFree(v: PhaseView, pv: PlaceView, place: Places, c: Cpu)
    requires PhasesOk(v) && PlacesOk(pv, place) && v.idle == pv.idle && c in pv.zombie
    requires c in v.idleTid && v.idleTid[c] == pv.zombie[c].t
    ensures c !in pv.idle
  {
    var t := pv.zombie[c].t;
    assert Held(pv, IsZombie(c), t);
    assert !Held(pv, InIdleSlot(c), t);
  }

  lemma RouteIdleInv(s: Machine, w: Track, c: Cpu) returns (w': Track)
    requires InvAt(s, w) && Enabled(s, DoRoute(c)) && c in s.zombie && s.zombie[c].disposal == Enqueue
    requires c in s.idleTid && s.idleTid[c] == s.zombie[c].t
    ensures InvAt(Apply(s, DoRoute(c)), w')
  {
    hide PlacesOk, PhasesOk, SavedOk, TicketsOk, IdleOk;
    var t := s.zombie[c].t;
    HeldOnly(PlacesOf(s), w.place, IsZombie(c), t);
    IdleSlotFree(PhasesOf(s), PlacesOf(s), w.place, c);
    PhasesRouteIdle(PhasesOf(s), c);
    PlacesRouteIdle(PlacesOf(s), w.place, c);
    SavedRoute(SavedOf(s), w.place, c, InIdleSlot(c));
    TicketsRoute(TicketsOf(s), w, c, InIdleSlot(c));
    IdleRoute(IdleOf(s), w.place, c, InIdleSlot(c), s.idle[c := t]);
    w' := Moved(w, t, InIdleSlot(c));
  }

  lemma RouteQueueInv(s: Machine, w: Track, c: Cpu) returns (w': Track)
    requires InvAt(s, w) && Enabled(s, DoRoute(c)) && c in s.zombie && s.zombie[c].disposal == Enqueue
    requires !(c in s.idleTid && s.idleTid[c] == s.zombie[c].t)
    ensures InvAt(Apply(s, DoRoute(c)), w')
  {
    hide PlacesOk, PhasesOk, SavedOk, TicketsOk, IdleOk;
    HeldOnly(PlacesOf(s), w.place, IsZombie(c), s.zombie[c].t);
    PhasesRoute(PhasesOf(s), c);
    PlacesRouteQueue(PlacesOf(s), w.place, c);
    SavedRoute(SavedOf(s), w.place, c, InQueue);
    TicketsRoute(TicketsOf(s), w, c, InQueue);
    IdleRoute(IdleOf(s), w.place, c, InQueue, s.idle);
    w' := Moved(w, s.zombie[c].t, InQueue);
  }

  /** An idle task never parks or dies, so only `Enqueue` can route it. */
  lemma OnlyEnqueueIsIdle(v: IdleView, place: Places, c: Cpu)
    requires IdleOk(v, place) && c in v.zombie && At(place, v.zombie[c].t, IsZombie(c))
    requires v.zombie[c].disposal != Enqueue
    ensures !(c in v.idleTid && v.idleTid[c] == v.zombie[c].t)
  {
  }

  lemma RouteParkInv(s: Machine, w: Track, c: Cpu, r: Res) returns (w': Track)
    requires InvAt(s, w) && Enabled(s, DoRoute(c)) && c in s.zombie && s.zombie[c].disposal == Park(r)
    requires r in s.lot && s.lot[r] == Reserved
    ensures InvAt(Apply(s, DoRoute(c)), w')
  {
    hide PlacesOk, PhasesOk, SavedOk, TicketsOk, IdleOk;
    HeldOnly(PlacesOf(s), w.place, IsZombie(c), s.zombie[c].t);
    PhasesRoute(PhasesOf(s), c);
    PlacesRouteLot(PlacesOf(s), w.place, c, r);
    SavedRoute(SavedOf(s), w.place, c, InLot(r));
    PlacesOuts(PlacesOf(s), w.place);
    TicketsPark(TicketsOf(s), w, c, r);
    OnlyEnqueueIsIdle(IdleOf(s), w.place, c);
    IdleRoute(IdleOf(s), w.place, c, InLot(r), s.idle);
    w' := Moved(w, s.zombie[c].t, InLot(r));
  }

  lemma RouteBounceInv(s: Machine, w: Track, c: Cpu, r: Res) returns (w': Track)
    requires InvAt(s, w) && Enabled(s, DoRoute(c)) && c in s.zombie && s.zombie[c].disposal == Park(r)
    requires !(r in s.lot && s.lot[r] == Reserved)
    ensures InvAt(Apply(s, DoRoute(c)), w')
  {
    hide PlacesOk, PhasesOk, SavedOk, TicketsOk, IdleOk;
    var t := s.zombie[c].t;
    HeldOnly(PlacesOf(s), w.place, IsZombie(c), t);
    PhasesRoute(PhasesOf(s), c);
    PlacesOuts(PlacesOf(s), w.place);
    TicketsBounce(TicketsOf(s), w, c, r);
    PlacesRouteQueue(PlacesOf(s), w.place, c);
    PlacesBounce(PlacesOf(s).(zombie := s.zombie - {c}, runQueue := s.runQueue + [t]), w.place[t := InQueue], r);
    SavedRoute(SavedOf(s), w.place, c, InQueue);
    OnlyEnqueueIsIdle(IdleOf(s), w.place, c);
    IdleRoute(IdleOf(s), w.place, c, InQueue, s.idle);
    w' := Moved(w, t, InQueue);
  }

  lemma RouteCleanupInv(s: Machine, w: Track, c: Cpu) returns (w': Track)
    requires InvAt(s, w) && Enabled(s, DoRoute(c)) && c in s.zombie && s.zombie[c].disposal == Terminate
    ensures InvAt(Apply(s, DoRoute(c)), w')
  {
    hide PlacesOk, PhasesOk, SavedOk, TicketsOk, IdleOk;
    HeldOnly(PlacesOf(s), w.place, IsZombie(c), s.zombie[c].t);
    PhasesRoute(PhasesOf(s), c);
    PlacesRouteCleanup(PlacesOf(s), w.place, c);
    SavedRoute(SavedOf(s), w.place, c, InCleanup);
    TicketsRoute(TicketsOf(s), w, c, InCleanup);
    OnlyEnqueueIsIdle(IdleOf(s), w.place, c);
    IdleRoute(IdleOf(s), w.place, c, InCleanup, s.idle);
    w' := Moved(w, s.zombie[c].t, InCleanup);
  }

  lemma RouteNothingInv(s: Machine, w: Track, c: Cpu)
    requires InvAt(s, w) && Enabled(s, DoRoute(c)) && c !in s.zombie
    ensures InvAt(Apply(s, DoRoute(c)), w)
  {
    hide PlacesOk, PhasesOk, SavedOk, TicketsOk, IdleOk;
    PhasesRoute(PhasesOf(s), c);
    assert s.zombie - {c} == s.zombie;
  }

  lemma RouteInv(s: Machine, w: Track, c: Cpu)
    requires InvAt(s, w) && Enabled(s, DoRoute(c))
    ensures Inv(Apply(s, DoRoute(c)))
  {
    hide InvAt, Route;
    if c !in s.zombie {
      RouteNothingInv(s, w, c);
    } else {
      match s.zombie[c].disposal
      case Enqueue =>
        if c in s.idleTid && s.idleTid[c] == s.zombie[c].t {
          var w' := RouteIdleInv(s, w, c);
        } else {
          var w' := RouteQueueInv(s, w, c);
        }
      case Park(r) =>
        if r in s.lot && s.lot[r] == Reserved {
          var w' := RouteParkInv(s, w, c, r);
        } else {
          var w' := RouteBounceInv(s, w, c, r);
        }
      case Terminate => var w' := RouteCleanupInv(s, w, c);
    }
  }

  lemma PickQueueInv(s: Machine, w: Track, c: Cpu) returns (w': Track)
    requires InvAt(s, w) && Enabled(s, DoPick(c)) && |s.runQueue| > 0
    ensures InvAt(Apply(s, DoPick(c)), w')
  {
    hide PlacesOk, PhasesOk, SavedOk, TicketsOk, IdleOk;
    var t := s.runQueue[0];
    HeldAt(PlacesOf(s), w.place, InQueue, t);
    PhasesPickQueue(PhasesOf(s), c, t);
    PlacesPickQueue(PlacesOf(s), w.place, c);
    SavedMove(SavedOf(s), w.place, t, InQueue, IsPicked(c));
    TicketsMove(TicketsOf(s), w, t, IsPicked(c));
    IdlePick(IdleOf(s), w.place, c, t, InQueue, s.idle);
    w' := Moved(w, t, IsPicked(c));
  }

  lemma PickIdleInv(s: Machine, w: Track, c: Cpu) returns (w': Track)
    requires InvAt(s, w) && Enabled(s, DoPickIdle(c)) && MustLeave(s, c) && c in s.idle
    ensures InvAt(Apply(s, DoPickIdle(c)), w')
  {
    hide PlacesOk, PhasesOk, SavedOk, TicketsOk, IdleOk;
    var t := s.idle[c];
    HeldAt(PlacesOf(s), w.place, InIdleSlot(c), t);
    PhasesPickIdle(PhasesOf(s), c, t);
    PlacesPickIdle(PlacesOf(s), w.place, c);
    SavedMove(SavedOf(s), w.place, t, InIdleSlot(c), IsPicked(c));
    TicketsMove(TicketsOf(s), w, t, IsPicked(c));
    IdlePick(IdleOf(s), w.place, c, t, InIdleSlot(c), s.idle - {c});
    w' := Moved(w, t, IsPicked(c));
  }

  lemma PickNoneInv(s: Machine, w: Track, c: Cpu)
    requires InvAt(s, w) && Enabled(s, DoPick(c)) && |s.runQueue| == 0
    ensures InvAt(Apply(s, DoPick(c)), w)
  {
    hide PlacesOk, PhasesOk, SavedOk, TicketsOk, IdleOk;
    PhasesPickNone(PhasesOf(s), c);
  }

  lemma EarlyReturnInv(s: Machine, w: Track, c: Cpu)
    requires InvAt(s, w) && Enabled(s, DoPickIdle(c)) && !(MustLeave(s, c) && c in s.idle)
    ensures InvAt(Apply(s, DoPickIdle(c)), w)
  {
    hide PlacesOk, PhasesOk, SavedOk, TicketsOk, IdleOk;
    PhasesReturn(PhasesOf(s), c);
  }

  lemma PickInv(s: Machine, w: Track, c: Cpu)
    requires InvAt(s, w) && Enabled(s, DoPick(c))
    ensures Inv(Apply(s, DoPick(c)))
  {
    hide InvAt, Pick;
    if |s.runQueue| > 0 {
      var w' := PickQueueInv(s, w, c);
    } else {
      PickNoneInv(s, w, c);
    }
  }

  lemma PickIdleStepInv(s: Machine, w: Track, c: Cpu)
    requires InvAt(s, w) && Enabled(s, DoPickIdle(c))
    ensures Inv(Apply(s, DoPickIdle(c)))
  {
    hide InvAt, PickIdle;
    if MustLeave(s, c) && c in s.idle {
      var w' := PickIdleInv(s, w, c);
    } else {
      EarlyReturnInv(s, w, c);
    }
  }

  lemma LeaveInv(s: Machine, w: Track, c: Cpu)
    requires InvAt(s, w) && Enabled(s, DoLeave(c))
    ensures InvAt(Apply(s, DoLeave(c)), Moved(Moved(w, s.current[c], IsLeaving(c)), s.picked[c], OnCpu(c)))
  {
    hide PlacesOk, PhasesOk, SavedOk, TicketsOk, IdleOk;
    var t, n, d := s.current[c], s.picked[c], DisposalOf(s, s.current[c]);
    HeldOnly(PlacesOf(s), w.place, OnCpu(c), t);
    HeldAt(PlacesOf(s), w.place, IsPicked(c), n);
    PhasesLeave(PhasesOf(s), c, n, Outgoing(t, d));
    PlacesLeave(PlacesOf(s), w.place, c, d);
    SavedLeave(SavedOf(s), w.place, c, t, n, d);
    TicketsLeave(TicketsOf(s), w, c, t, n, d);
    IdleLeave(IdleOf(s), w.place, c, t, n, d);
  }

  lemma SwitchInv(s: Machine, w: Track, c: Cpu)
    requires InvAt(s, w) && Enabled(s, DoSwitch(c))
    ensures InvAt(Apply(s, DoSwitch(c)), Moved(w, s.leaving[c].t, IsZombie(c)))
  {
    hide PlacesOk, PhasesOk, SavedOk, TicketsOk, IdleOk;
    HeldOnly(PlacesOf(s), w.place, OnCpu(c), s.current[c]);
    HeldOnly(PlacesOf(s), w.place, IsLeaving(c), s.leaving[c].t);
    PhasesSwitch(PhasesOf(s), c, s.leaving[c]);
    PlacesSwitch(PlacesOf(s), w.place, c);
    SavedSwitch(SavedOf(s), w.place, c, s.current[c]);
    TicketsSwitch(TicketsOf(s), w, c);
    IdleSwitch(IdleOf(s), w.place, c);
  }

  lemma WakeInv(s: Machine, w: Track, r: Res, h: nat)
    requires InvAt(s, w) && Enabled(s, DoWake(r, h))
    ensures Inv(Apply(s, DoWake(r, h)))
  {
    hide InvAt, Wake;
    if r in s.lot && s.lot[r].Occupied? {
      var w' := WakeParkedInv(s, w, r, h);
    } else {
      WakeEarlyInv(s, w, r, h);
    }
  }

  lemma StepInv(s: Machine, w: Track, step: Step)
    requires InvAt(s, w) && Enabled(s, step)
    ensures Inv(Apply(s, step))
  {
    hide InvAt, Apply;
    match step
    case DoBoot(c, t) => BootInv(s, w, c, t);
    case DoCreate(h, t) => CreateInv(s, w, h, t);
    case DoSetIdleTask(c, t) => SetIdleTaskInv(s, w, c, t);
    case DoEnqueueHand(h) => EnqueueHandInv(s, w, h);
    case DoDropCorpse => DropCorpseInv(s, w);
    case DoSetTerminate(t, on) => SetTerminateInv(s, w, t, on);
    case DoBlock(c) => BlockInv(s, w, c);
    case DoWake(r, h) => WakeInv(s, w, r, h);
    case DoEnter(c) => EnterInv(s, w, c);
    case DoRoute(c) => RouteInv(s, w, c);
    case DoPick(c) => PickInv(s, w, c);
    case DoPickIdle(c) => PickIdleStepInv(s, w, c);
    case DoLeave(c) => LeaveInv(s, w, c);
    case DoSwitch(c) => SwitchInv(s, w, c);
  }

  // ------------------------------------------------------------------- the claims

  /** The places a task can be found in, queues by position so that a double entry would show. */
  datatype Spot = Spot(p: Place, i: nat)

  ghost predicate FoundAt(s: Machine, at: Spot, t: Tid) {
    match at.p
    case InQueue => at.i < |s.runQueue| && s.runQueue[at.i] == t
    case InCleanup => at.i < |s.cleanup| && s.cleanup[at.i] == t
    case _ => at.i == 0 && Held(PlacesOf(s), at.p, t)
  }

  ghost predicate OnePlaceEach(s: Machine) {
    && (forall t :: t in s.live ==> exists at :: FoundAt(s, at, t))
    && (forall a, b, t :: FoundAt(s, a, t) && FoundAt(s, b, t) ==> a == b)
  }

  /** Whatever can be resumed has its stack pointer stored; a task routed to cleanup may not. */
  ghost predicate ResumableSaved(s: Machine) {
    && (forall i :: 0 <= i < |s.runQueue| ==> s.runQueue[i] in s.saved)
    && (forall r :: r in s.lot && s.lot[r].Occupied? ==> s.lot[r].t in s.saved)
    && (forall h :: h in s.hands ==> s.hands[h] in s.saved)
    && (forall c :: c in s.idle ==> s.idle[c] in s.saved)
    && (forall c :: c in s.picked ==> s.picked[c] in s.saved)
    && (forall c :: c in s.leaving ==> c in s.current && s.current[c] in s.saved)
    && (forall c :: c in s.zombie ==> (s.zombie[c].t in s.saved <==> s.zombie[c].disposal != Terminate))
  }

  ghost predicate IdleHome(s: Machine, c: Cpu)
    requires c in s.idleTid
  {
    || (c in s.current && s.current[c] == s.idleTid[c])
    || (c in s.zombie && s.zombie[c] == Outgoing(s.idleTid[c], Enqueue))
    || (c in s.idle && s.idle[c] == s.idleTid[c])
    || (c in s.picked && s.picked[c] == s.idleTid[c])
    || (c in s.leaving && s.leaving[c] == Outgoing(s.idleTid[c], Enqueue))
  }

  /** A CPU's idle task is on that CPU, and a task that cannot stay always finds a target. */
  ghost predicate IdleReady(s: Machine) {
    && (forall c :: c in s.idleTid ==> IdleHome(s, c))
    && (forall c :: c in s.idleTid && InPhase(s, c, NoneQueued) && MustLeave(s, c) ==> PickIdle(s, c).phase[c] == HasNext)
  }

  ghost predicate Carried(s: Machine, r: Res) {
    || (exists t :: t in s.tickets && s.tickets[t] == r)
    || (exists c :: c in s.zombie && s.zombie[c].disposal == Park(r))
    || (exists c :: c in s.leaving && s.leaving[c].disposal == Park(r))
  }

  /** A ticket sits only in the cell of a task on a CPU; once taken it is carried to its park;
  a parked task always has its wake right, and a spent one means the park will bounce. */
  ghost predicate TicketsUsed(s: Machine) {
    && (forall t :: t in s.tickets ==> exists c :: c in s.current && s.current[c] == t && c !in s.leaving)
    && (forall r :: r in s.lot && !s.lot[r].Occupied? ==> Carried(s, r))
    && (forall r :: r in s.wakeRights <==> r in s.lot && s.lot[r] != Unparked)
  }

  ghost predicate Safe(s: Machine) {
    OnePlaceEach(s) && ResumableSaved(s) && IdleReady(s) && TicketsUsed(s)
  }

  lemma IsSomewhere(s: Machine, place: Places, t: Tid)
    requires PlacesOk(PlacesOf(s), place) && t in s.live
    ensures exists at :: FoundAt(s, at, t)
  {
    LivePlaced(PlacesOf(s), place, t);
    var p := place[t];
    assert At(place, t, p);
    var i: nat := 0;
    if p.InQueue? {
      i :| 0 <= i < |s.runQueue| && s.runQueue[i] == t;
    } else if p.InCleanup? {
      i :| 0 <= i < |s.cleanup| && s.cleanup[i] == t;
    }
    assert FoundAt(s, Spot(p, i), t);
  }

  lemma FoundOnRecord(s: Machine, place: Places, a: Spot, t: Tid)
    requires PlacesOk(PlacesOf(s), place) && FoundAt(s, a, t)
    ensures At(place, t, a.p)
  {
    assert Held(PlacesOf(s), a.p, t);
  }

  lemma NotTwice(s: Machine, place: Places, a: Spot, b: Spot, t: Tid)
    requires PlacesOk(PlacesOf(s), place) && FoundAt(s, a, t) && FoundAt(s, b, t)
    ensures a == b
  {
    FoundOnRecord(s, place, a, t);
    FoundOnRecord(s, place, b, t);
    assert NoDup(s.runQueue) && NoDup(s.cleanup);
  }

  lemma InvOnePlace(s: Machine, place: Places)
    requires PlacesOk(PlacesOf(s), place)
    ensures OnePlaceEach(s)
  {
    forall t | t in s.live
      ensures exists at :: FoundAt(s, at, t)
    {
      IsSomewhere(s, place, t);
    }
    forall a, b, t | FoundAt(s, a, t) && FoundAt(s, b, t)
      ensures a == b
    {
      NotTwice(s, place, a, b, t);
    }
  }

  /** A task held anywhere but on a CPU, by the cleanup queue or on its way out. */
  lemma HeldSaved(s: Machine, place: Places, p: Place, t: Tid)
    requires PlacesOk(PlacesOf(s), place) && SavedOk(SavedOf(s), place) && Held(PlacesOf(s), p, t)
    requires !p.InCleanup? && !p.IsLeaving?
    requires p.OnCpu? ==> p.c in s.leaving
    requires p.IsZombie? ==> s.zombie[p.c].disposal != Terminate
    ensures t in s.saved
  {
    HeldAt(PlacesOf(s), place, p, t);
  }

  lemma CorpseUnsaved(s: Machine, place: Places, c: Cpu)
    requires PlacesOk(PlacesOf(s), place) && SavedOk(SavedOf(s), place)
    requires c in s.zombie && s.zombie[c].disposal == Terminate
    ensures s.zombie[c].t !in s.saved
  {
    HeldAt(PlacesOf(s), place, IsZombie(c), s.zombie[c].t);
  }

  lemma OwnersSaved(s: Machine, place: Places)
    requires PlacesOk(PlacesOf(s), place) && SavedOk(SavedOf(s), place)
    ensures forall i :: 0 <= i < |s.runQueue| ==> s.runQueue[i] in s.saved
    ensures forall r :: r in s.lot && s.lot[r].Occupied? ==> s.lot[r].t in s.saved
    ensures forall h :: h in s.hands ==> s.hands[h] in s.saved
  {
    hide PlacesOk, SavedOk;
    forall i | 0 <= i < |s.runQueue|
      ensures s.runQueue[i] in s.saved
    {
      HeldSaved(s, place, InQueue, s.runQueue[i]);
    }
    forall r | r in s.lot && s.lot[r].Occupied?
      ensures s.lot[r].t in s.saved
    {
      HeldSaved(s, place, InLot(r), s.lot[r].t);
    }
    forall h | h in s.hands
      ensures s.hands[h] in s.saved
    {
      HeldSaved(s, place, InHand(h), s.hands[h]);
    }
  }

  lemma SlotsSaved(s: Machine, place: Places)
    requires PlacesOk(PlacesOf(s), place) && SavedOk(SavedOf(s), place)
    ensures forall c :: c in s.idle ==> s.idle[c] in s.saved
    ensures forall c :: c in s.picked ==> s.picked[c] in s.saved
    ensures forall c :: c in s.zombie ==> (s.zombie[c].t in s.saved <==> s.zombie[c].disposal != Terminate)
  {
    hide PlacesOk, SavedOk;
    forall c | c in s.idle
      ensures s.idle[c] in s.saved
    {
      HeldSaved(s, place, InIdleSlot(c), s.idle[c]);
    }
    forall c | c in s.picked
      ensures s.picked[c] in s.saved
    {
      HeldSaved(s, place, IsPicked(c), s.picked[c]);
    }
    forall c | c in s.zombie
      ensures s.zombie[c].t in s.saved <==> s.zombie[c].disposal != Terminate
    {
      if s.zombie[c].disposal == Terminate {
        CorpseUnsaved(s, place, c);
      } else {
        HeldSaved(s, place, IsZombie(c), s.zombie[c].t);
      }
    }
  }

  lemma LeavingOnCpu(v: PhaseView, c: Cpu)
    requires PhasesOk(v) && c in v.leaving
    ensures c in v.current
  {
  }

  lemma InvSaved(s: Machine, w: Track)
    requires InvAt(s, w)
    ensures ResumableSaved(s)
  {
    hide PlacesOk, PhasesOk, SavedOk, TicketsOk, IdleOk;
    OwnersSaved(s, w.place);
    SlotsSaved(s, w.place);
    forall c | c in s.leaving
      ensures c in s.current && s.current[c] in s.saved
    {
      LeavingOnCpu(PhasesOf(s), c);
      HeldSaved(s, w.place, OnCpu(c), s.current[c]);
    }
  }

  lemma IdleIsHome(s: Machine, w: Track, c: Cpu)
    requires PlacesOk(PlacesOf(s), w.place) && IdleOk(IdleOf(s), w.place) && c in s.idleTid
    ensures IdleHome(s, c)
    ensures s.idleTid[c] !in s.tickets && s.idleTid[c] !in s.terminating
  {
    assert AtHome(IdleOf(s), w.place, c, s.idleTid[c]);
    assert At(w.place, s.idleTid[c], w.place[s.idleTid[c]]);
  }

  lemma PickingAlone(v: PhaseView, c: Cpu)
    requires PhasesOk(v) && c in v.phase && v.phase[c] == NoneQueued
    ensures c !in v.zombie && c !in v.picked && c !in v.leaving
  {
  }

  lemma InvIdle(s: Machine, w: Track)
    requires InvAt(s, w)
    ensures IdleReady(s)
  {
    hide PlacesOk, PhasesOk, SavedOk, TicketsOk, IdleOk;
    forall c | c in s.idleTid
      ensures IdleHome(s, c)
    {
      IdleIsHome(s, w, c);
    }
    forall c | c in s.idleTid && InPhase(s, c, NoneQueued) && MustLeave(s, c)
      ensures PickIdle(s, c).phase[c] == HasNext
    {
      IdleIsHome(s, w, c);
      PickingAlone(PhasesOf(s), c);
    }
  }

  lemma TicketOnCpu(s: Machine, w: Track, t: Tid)
    requires PlacesOk(PlacesOf(s), w.place) && TicketsOk(TicketsOf(s), w) && t in s.tickets
    ensures exists c :: c in s.current && s.current[c] == t && c !in s.leaving
  {
    assert At(w.place, t, w.place[t]);
    var c := w.place[t].c;
    assert Held(PlacesOf(s), OnCpu(c), t);
  }

  lemma TicketCarried(s: Machine, w: Track, r: Res)
    requires TicketsOk(TicketsOf(s), w) && r in s.lot && !s.lot[r].Occupied?
    ensures Carried(s, r)
  {
    assert Pending(TicketsOf(s), w.place, r, w.parkOf[r]);
  }

  lemma WakeRightsExact(v: TicketView, w: Track, r: Res)
    requires TicketsOk(v, w)
    ensures r in v.wakeRights <==> r in v.lot && v.lot[r] != Unparked
  {
  }

  lemma InvTickets(s: Machine, w: Track)
    requires InvAt(s, w)
    ensures TicketsUsed(s)
  {
    hide PlacesOk, PhasesOk, SavedOk, TicketsOk, IdleOk;
    forall t | t in s.tickets
      ensures exists c :: c in s.current && s.current[c] == t && c !in s.leaving
    {
      TicketOnCpu(s, w, t);
    }
    forall r | r in s.lot && !s.lot[r].Occupied?
      ensures Carried(s, r)
    {
      TicketCarried(s, w, r);
    }
    forall r
      ensures r in s.wakeRights <==> r in s.lot && s.lot[r] != Unparked
    {
      WakeRightsExact(TicketsOf(s), w, r);
    }
  }

  lemma {:induction false} RunInv(run: seq<Machine>, i: nat)
    requires IsRun(run) && i < |run|
    ensures Inv(run[i])
  {
    if i == 0 {
      InitialInv();
    } else {
      hide InvAt, Enabled, Apply;
      RunInv(run, i - 1);
      assert Next(run[i - 1], run[i - 1 + 1]);
      var step :| Enabled(run[i - 1], step) && run[i] == Apply(run[i - 1], step);
      var w :| InvAt(run[i - 1], w);
      StepInv(run[i - 1], w, step);
    }
  }

  /** In every state of every run the scheduler is safe. */
  lemma RunSafe(run: seq<Machine>, i: nat)
    requires IsRun(run) && i < |run|
    ensures Safe(run[i])
  {
    hide PlacesOk, PhasesOk, SavedOk, TicketsOk, IdleOk;
    RunInv(run, i);
    var w :| InvAt(run[i], w);
    InvOnePlace(run[i], w.place);
    InvSaved(run[i], w);
    InvIdle(run[i], w);
    InvTickets(run[i], w);
  }

  /** With an idle task installed, a call of `reschedule` that returns at once leaves no ticket in
  the cell of the task that called it. */
  lemma EarlyReturn(run: seq<Machine>, i: nat, c: Cpu)
    requires IsRun(run) && i < |run| && c in run[i].idleTid
    requires InPhase(run[i], c, NoneQueued) && PickIdle(run[i], c).phase[c] == Running
    ensures run[i].current[c] !in run[i].tickets && run[i].current[c] !in run[i].terminating
  {
    RunSafe(run, i);
  }

  lemma NoTicketWhileLeaving(s: Machine, w: Track, c: Cpu)
    requires PlacesOk(PlacesOf(s), w.place) && TicketsOk(TicketsOf(s), w) && c in s.current && c in s.leaving
    ensures s.current[c] !in s.tickets
  {
    HeldAt(PlacesOf(s), w.place, OnCpu(c), s.current[c]);
  }

  /** A task that was switched out resumes from a stored stack pointer with an empty ticket cell. */
  lemma Resumption(run: seq<Machine>, i: nat, c: Cpu)
    requires IsRun(run) && i < |run| && InPhase(run[i], c, HasOld) && c in run[i].leaving
    ensures run[i].current[c] in run[i].saved && run[i].current[c] !in run[i].tickets
  {
    RunSafe(run, i);
    RunInv(run, i);
    hide PlacesOk, PhasesOk, SavedOk, TicketsOk, IdleOk;
    var w :| InvAt(run[i], w);
    NoTicketWhileLeaving(run[i], w, c);
  }

  // ------------------------------------------------------------- the slots of the lot

  function SlotOf(lot: Lot, r: Res): ParkSlot.Slot {
    if r !in lot then ParkSlot.Done
    else
      match lot[r]
      case Reserved => ParkSlot.Reserved
      case Occupied(t) => ParkSlot.Occupied(t)
      case Unparked => ParkSlot.Unparked
  }

  lemma ZombieWaits(v: TicketView, w: Track, c: Cpu)
    requires TicketsOk(v, w) && c in v.zombie && v.zombie[c].disposal.Park?
    ensures v.zombie[c].disposal.r in v.lot && !v.lot[v.zombie[c].disposal.r].Occupied?
  {
    ParkWaits(v, w, c, v.zombie[c].disposal.r);
  }

  lemma RouteSlots(s: Machine, w: Track, c: Cpu, r: Res)
    requires InvAt(s, w)
    ensures ParkSlot.Moves(SlotOf(s.lot, r), SlotOf(Route(s, c).lot, r))
  {
    hide PlacesOk, PhasesOk, SavedOk, TicketsOk, IdleOk;
    if c in s.zombie && s.zombie[c].disposal.Park? {
      ZombieWaits(TicketsOf(s), w, c);
    }
  }

  lemma WakeSlots(s: Machine, w: Track, q: Res, h: nat, r: Res)
    requires InvAt(s, w) && q in s.wakeRights
    ensures ParkSlot.Moves(SlotOf(s.lot, r), SlotOf(Wake(s, q, h).lot, r))
  {
    hide PlacesOk, PhasesOk, SavedOk, TicketsOk, IdleOk;
    WakeRightsExact(TicketsOf(s), w, q);
  }

  lemma OtherSlots(s: Machine, step: Step, r: Res)
    requires Enabled(s, step) && !step.DoRoute? && !step.DoWake? && r < s.nextRes
    ensures SlotOf(Apply(s, step).lot, r) == SlotOf(s.lot, r)
  {
  }

  /** Every slot goes through parks and unparks only, in every run. */
  lemma RunSlots(run: seq<Machine>, i: nat, r: Res)
    requires IsRun(run) && i + 1 < |run| && r < run[i].nextRes
    ensures ParkSlot.Moves(SlotOf(run[i].lot, r), SlotOf(run[i + 1].lot, r))
  {
    RunInv(run, i);
    hide InvAt, SlotOf, Route, Wake;
    assert Next(run[i], run[i + 1]);
    var step :| Enabled(run[i], step) && run[i + 1] == Apply(run[i], step);
    var w :| InvAt(run[i], w);
    hide IsRun;
    match step
    case DoRoute(c) => RouteSlots(run[i], w, c, r);
    case DoWake(q, h) => WakeSlots(run[i], w, q, h, r);
    case _ => OtherSlots(run[i], step, r);
  }
}
