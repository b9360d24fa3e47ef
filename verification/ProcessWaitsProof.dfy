/** No lost wake-up and a sound exec reap, over every run of the process machine. */
module ProcessWaitsProof {
  import opened Basics
  import opened ParkSlot
  import opened ProcessWaits

  // ------------------------------------------------------------- the invariant

  /** Bookkeeping of the proof: whose reservation it is, who swapped its flag, and which wakers
  are already fired or in somebody's batch. */
  datatype Track = Track(owner: map<Wid, Tid>, firer: map<Wid, Actor>, hand: set<Wid>, catcher: map<Wid, Actor>)

  type Pcs = map<Tid, Pc>

  predicate IsParked(p: Pc) { p.WaitParked? || p.ReapParked? }

  predicate BeforePark(p: Pc) {
    || p.WaitSleep? || p.WaitRegister? || p.Recheck? || p.RecheckFlag? || p.RecheckLock?
    || p.WaitSelf? || p.WaitBlock? || p.ReapArm? || p.ReapSelf? || p.ReapBlock?
  }

  predicate HasWaker(p: Pc) { BeforePark(p) || IsParked(p) || p.WaitClear? }

  predicate FiresOwn(p: Pc) { p.WaitSelf? || p.ReapSelf? || p == ReapFire }

  /** From arming the deadline to the end of the park. */
  predicate Armed(p: Pc) {
    p.WaitRegister? || Listed(p)
  }

  /** From registering the waker to the end of the park. */
  predicate Listed(p: Pc) {
    p.Recheck? || p.WaitSelf? || Checked(p)
  }

  /** Past the second look at the condition. */
  predicate Checked(p: Pc) {
    p.RecheckFlag? || p.RecheckLock? || Committed(p)
  }

  /** Past the second look at the reap as well. */
  predicate Committed(p: Pc) {
    p.WaitBlock? || p.WaitParked?
  }

  predicate InReap(p: Pc) {
    || p == ReapResume || p == ReapTake || p == ReapFire || p == ReapCheck || p == ReapReserve
    || p.ReapArm? || p.ReapSelf? || p.ReapBlock? || p.ReapParked? || p == Sole || p == Finish
  }

  /** The reaper has published its request and has not taken the list of sleepers yet. */
  predicate ReaperComing(pc: Pcs, reap: Option<Reap>) {
    && reap.Some? && reap.value.keeper in pc
    && (pc[reap.value.keeper] == ReapResume || pc[reap.value.keeper] == ReapTake)
  }

  ghost predicate SlotsOk(pc: Pcs, slots: map<Wid, Slot>, owner: map<Wid, Tid>) {
    && (forall t :: t in pc && HasWaker(pc[t]) ==>
          && pc[t].w in slots && pc[t].w in owner && owner[pc[t].w] == t
          && (IsParked(pc[t]) ==> slots[pc[t].w] == Occupied(t))
          && (BeforePark(pc[t]) ==> slots[pc[t].w] == Reserved || slots[pc[t].w] == Unparked))
    && (forall w :: w in slots && slots[w].Occupied? ==>
          slots[w].t in pc && IsParked(pc[slots[w].t]) && pc[slots[w].t].w == w)
    && (forall w :: w in owner ==> w in slots)
  }

  ghost predicate FiringOk(slots: map<Wid, Slot>, fired: set<Wid>, mid: map<Actor, Wid>, firer: map<Wid, Actor>) {
    && (forall w :: w in fired ==> w in slots)
    && (forall w :: w in slots && w !in fired ==> slots[w] == Reserved || slots[w].Occupied?)
    && (forall w :: w in fired && (slots[w] == Reserved || slots[w].Occupied?) ==>
          w in firer && firer[w] in mid && mid[firer[w]] == w)
    && (forall a :: a in mid ==>
          && mid[a] in fired && (slots[mid[a]] == Reserved || slots[mid[a]].Occupied?)
          && mid[a] in firer && firer[mid[a]] == a)
  }

  /** Every waker anybody could still fire belongs to a reservation that was made. */
  ghost predicate KnownOk(slots: map<Wid, Slot>, todo: map<Actor, set<Wid>>, registered: set<Reg>,
                          sleepers: set<Sleeper>, reap: Option<Reap>)
  {
    && (forall a, w :: a in todo && w in todo[a] ==> w in slots)
    && (forall r :: r in registered ==> r.w in slots)
    && (forall sl :: sl in sleepers ==> sl.w in slots)
    && (reap.Some? && reap.value.waiter.Some? ==> reap.value.waiter.value in slots)
  }

  ghost predicate CrewsOk(pc: Pcs, todo: map<Actor, set<Wid>>, mid: map<Actor, Wid>, published: set<nat>) {
    && (forall t :: OfTask(t) in todo <==> t in pc && FiresOwn(pc[t]))
    && (forall a :: a in mid ==> a in todo)
    && (forall n :: n in published ==> OfThread(n) !in todo)
  }

  ghost predicate HandOk(fired: set<Wid>, todo: map<Actor, set<Wid>>, hand: set<Wid>, catcher: map<Wid, Actor>) {
    forall w :: w in hand ==> w in fired || (w in catcher && catcher[w] in todo && w in todo[catcher[w]])
  }

  /** A listed waker is reachable by the next generator, or already on its way. */
  ghost predicate ListedOk(pc: Pcs, registered: set<Reg>, hand: set<Wid>) {
    forall t :: t in pc && Listed(pc[t]) ==> pc[t].w in hand || Reg(t, pc[t].w) in registered
  }

  /** A task that missed its condition has a generator still to come, or its waker on the way. */
  ghost predicate EventOk(pc: Pcs, ready: set<Tid>, published: set<nat>, hand: set<Wid>) {
    && (forall t :: t in pc && Checked(pc[t]) && t in ready ==> pc[t].w in hand || published != {})
    && (forall t :: t in pc && pc[t].WaitSelf? ==> pc[t].w in hand)
  }

  ghost predicate TargetOk(pc: Pcs, reap: Option<Reap>, reapActive: bool, hand: set<Wid>) {
    forall t :: t in pc && Committed(pc[t]) && reapActive && Targeted(reap, t) ==>
      pc[t].w in hand || ReaperComing(pc, reap)
  }

  ghost predicate DeadlineOk(pc: Pcs, deadline: map<Tid, Option<nat>>, sleepers: set<Sleeper>, hand: set<Wid>) {
    forall t :: t in pc ==>
      && t in deadline
      && (Armed(pc[t]) && deadline[t].Some? ==>
            pc[t].w in hand || Sleeper(deadline[t].value, pc[t].w) in sleepers)
  }

  ghost predicate AccountOk(pc: Pcs, live: int, reap: Option<Reap>, reapActive: bool, hand: set<Wid>) {
    && live == |pc|
    && (reapActive ==> reap.Some?)
    && (forall t :: t in pc && InReap(pc[t]) ==>
          reap.Some? && reap.value.keeper == t && (pc[t] == Finish <==> !reapActive))
    && (reap.Some? && !reapActive ==> reap.value.keeper in pc && pc[reap.value.keeper] == Finish)
    && (forall t :: t in pc && pc[t].ReapSelf? ==> pc[t].w in hand)
    && (forall t :: t in pc && (pc[t].ReapBlock? || pc[t].ReapParked?) ==>
          pc[t].w in hand || (live != 1 && reap.Some? && reap.value.waiter == Some(pc[t].w)))
  }

  ghost predicate WaitsOk(s: Process, hand: set<Wid>) {
    && ListedOk(s.pc, s.registered, hand)
    && EventOk(s.pc, s.ready, s.published, hand)
    && TargetOk(s.pc, s.reap, s.reapActive, hand)
    && DeadlineOk(s.pc, s.deadline, s.sleepers, hand)
    && AccountOk(s.pc, s.live, s.reap, s.reapActive, hand)
  }

  ghost predicate CoreOk(s: Process, k: Track) {
    && SlotsOk(s.pc, s.slots, k.owner)
    && FiringOk(s.slots, s.fired, s.mid, k.firer)
    && KnownOk(s.slots, s.todo, s.registered, s.sleepers, s.reap)
    && CrewsOk(s.pc, s.todo, s.mid, s.published)
    && HandOk(s.fired, s.todo, k.hand, k.catcher)
  }

  ghost predicate InvAt(s: Process, k: Track) {
    CoreOk(s, k) && WaitsOk(s, k.hand)
  }

  ghost predicate Inv(s: Process) {
    exists k :: InvAt(s, k)
  }

  function Catch(k: Track, a: Actor, ws: set<Wid>): Track {
    k.(hand := k.hand + ws,
       catcher := map w | w in k.catcher.Keys + ws :: if w in ws then a else k.catcher[w])
  }

  // ------------------------------------------------------------- one task moves on

  /** `p` keeps the task's waker and its side of the park exchange. */
  predicate KeepsWaker(q: Pc, p: Pc) {
    && !IsParked(q) && !IsParked(p)
    && (HasWaker(p) ==> HasWaker(q) && p.w == q.w)
    && (BeforePark(p) ==> BeforePark(q))
  }

  lemma SlotsMove(pc: Pcs, slots: map<Wid, Slot>, owner: map<Wid, Tid>, t: Tid, p: Pc)
    requires SlotsOk(pc, slots, owner) && t in pc && KeepsWaker(pc[t], p)
    ensures SlotsOk(pc[t := p], slots, owner)
  {
  }

  lemma CrewsMove(pc: Pcs, todo: map<Actor, set<Wid>>, mid: map<Actor, Wid>, published: set<nat>, t: Tid, p: Pc)
    requires CrewsOk(pc, todo, mid, published) && t in pc && FiresOwn(pc[t]) == FiresOwn(p)
    ensures CrewsOk(pc[t := p], todo, mid, published)
  {
  }

  lemma ListedMove(pc: Pcs, registered: set<Reg>, hand: set<Wid>, t: Tid, p: Pc)
    requires ListedOk(pc, registered, hand)
    requires Listed(p) ==> p.w in hand || Reg(t, p.w) in registered
    ensures ListedOk(pc[t := p], registered, hand)
  {
  }

  lemma EventMove(pc: Pcs, ready: set<Tid>, published: set<nat>, hand: set<Wid>, t: Tid, p: Pc)
    requires EventOk(pc, ready, published, hand)
    requires Checked(p) && t in ready ==> p.w in hand || published != {}
    requires p.WaitSelf? ==> p.w in hand
    ensures EventOk(pc[t := p], ready, published, hand)
  {
  }

  /** The mover is not a reaper about to take the list, or is still one afterwards. */
  predicate StaysComing(q: Pc, p: Pc) {
    q == ReapResume || q == ReapTake ==> p == ReapResume || p == ReapTake
  }

  lemma TargetMove(pc: Pcs, reap: Option<Reap>, reapActive: bool, hand: set<Wid>, t: Tid, p: Pc)
    requires TargetOk(pc, reap, reapActive, hand)
    requires t in pc && StaysComing(pc[t], p)
    requires Committed(p) && reapActive && Targeted(reap, t) ==> p.w in hand || ReaperComing(pc, reap)
    ensures TargetOk(pc[t := p], reap, reapActive, hand)
  {
  }

  lemma DeadlineMove(pc: Pcs, deadline: map<Tid, Option<nat>>, sleepers: set<Sleeper>, hand: set<Wid>, t: Tid, p: Pc)
    requires DeadlineOk(pc, deadline, sleepers, hand) && t in deadline
    requires Armed(p) && deadline[t].Some? ==> p.w in hand || Sleeper(deadline[t].value, p.w) in sleepers
    ensures DeadlineOk(pc[t := p], deadline, sleepers, hand)
  {
  }

  ghost predicate Accounted(live: int, reap: Option<Reap>, reapActive: bool, hand: set<Wid>, t: Tid, p: Pc) {
    && (InReap(p) ==> reap.Some? && reap.value.keeper == t && (p == Finish <==> !reapActive))
    && (reap.Some? && reap.value.keeper == t && !reapActive ==> p == Finish)
    && (p.ReapSelf? ==> p.w in hand)
    && (p.ReapBlock? || p.ReapParked? ==>
          p.w in hand || (live != 1 && reap.Some? && reap.value.waiter == Some(p.w)))
  }

  lemma AccountMove(pc: Pcs, live: int, reap: Option<Reap>, reapActive: bool, hand: set<Wid>, t: Tid, p: Pc)
    requires AccountOk(pc, live, reap, reapActive, hand) && t in pc
    requires Accounted(live, reap, reapActive, hand, t, p)
    ensures AccountOk(pc[t := p], live, reap, reapActive, hand)
  {
    assert pc[t := p].Keys == pc.Keys;
  }

  ghost predicate WaitFits(s: Process, hand: set<Wid>, t: Tid, p: Pc) {
    && t in s.pc && t in s.deadline
    && StaysComing(s.pc[t], p)
    && (Listed(p) ==> p.w in hand || Reg(t, p.w) in s.registered)
    && (Checked(p) && t in s.ready ==> p.w in hand || s.published != {})
    && (p.WaitSelf? ==> p.w in hand)
    && (Committed(p) && s.reapActive && Targeted(s.reap, t) ==> p.w in hand || ReaperComing(s.pc, s.reap))
    && (Armed(p) && s.deadline[t].Some? ==> p.w in hand || Sleeper(s.deadline[t].value, p.w) in s.sleepers)
    && Accounted(s.live, s.reap, s.reapActive, hand, t, p)
  }

  lemma WaitsMove(s: Process, hand: set<Wid>, t: Tid, p: Pc)
    requires WaitsOk(s, hand) && WaitFits(s, hand, t, p)
    ensures WaitsOk(Go(s, t, p), hand)
  {
    hide ListedOk, EventOk, TargetOk, DeadlineOk, AccountOk;
    ListedMove(s.pc, s.registered, hand, t, p);
    EventMove(s.pc, s.ready, s.published, hand, t, p);
    TargetMove(s.pc, s.reap, s.reapActive, hand, t, p);
    DeadlineMove(s.pc, s.deadline, s.sleepers, hand, t, p);
    AccountMove(s.pc, s.live, s.reap, s.reapActive, hand, t, p);
  }

  /** What the waiting invariant says of one task. */
  lemma FitsAt(s: Process, hand: set<Wid>, t: Tid)
    requires WaitsOk(s, hand) && t in s.pc
    ensures WaitFits(s, hand, t, s.pc[t])
  {
  }

  /** A step that only moves task `t` on to `p`. */
  lemma MoveInv(s: Process, k: Track, t: Tid, p: Pc)
    requires InvAt(s, k) && t in s.pc
    requires KeepsWaker(s.pc[t], p) && FiresOwn(s.pc[t]) == FiresOwn(p)
    requires WaitFits(s, k.hand, t, p)
    ensures InvAt(Go(s, t, p), k)
  {
    hide SlotsOk, FiringOk, KnownOk, CrewsOk, HandOk, WaitsOk, WaitFits;
    SlotsMove(s.pc, s.slots, k.owner, t, p);
    CrewsMove(s.pc, s.todo, s.mid, s.published, t, p);
    WaitsMove(s, k.hand, t, p);
  }

  lemma LoopFlagInv(s: Process, k: Track, t: Tid)
    requires InvAt(s, k) && Enabled(s, DoLoopFlag(t))
    ensures InvAt(Apply(s, DoLoopFlag(t)), k)
  {
    hide CoreOk, WaitsOk;
    FitsAt(s, k.hand, t);
    MoveInv(s, k, t, if s.reapActive then LoopLock else LoopCheck);
  }

  lemma LoopLockInv(s: Process, k: Track, t: Tid)
    requires InvAt(s, k) && Enabled(s, DoLoopLock(t))
    ensures InvAt(Apply(s, DoLoopLock(t)), k)
  {
    hide CoreOk, WaitsOk;
    FitsAt(s, k.hand, t);
    MoveInv(s, k, t, if Targeted(s.reap, t) then User else LoopCheck);
  }

  lemma LoopCheckInv(s: Process, k: Track, t: Tid)
    requires InvAt(s, k) && Enabled(s, DoLoopCheck(t))
    ensures InvAt(Apply(s, DoLoopCheck(t)), k)
  {
    hide CoreOk, WaitsOk;
    FitsAt(s, k.hand, t);
    MoveInv(s, k, t, if ShouldWake(s, t) then User else WaitReserve);
  }

  lemma RecheckFlagInv(s: Process, k: Track, t: Tid)
    requires InvAt(s, k) && Enabled(s, DoRecheckFlag(t))
    ensures InvAt(Apply(s, DoRecheckFlag(t)), k)
  {
    hide CoreOk, WaitsOk;
    FitsAt(s, k.hand, t);
    MoveInv(s, k, t, if s.reapActive then RecheckLock(s.pc[t].w) else WaitBlock(s.pc[t].w));
  }

  lemma CallReapInv(s: Process, k: Track, t: Tid)
    requires InvAt(s, k) && Enabled(s, DoCallReap(t))
    ensures InvAt(Apply(s, DoCallReap(t)), k)
  {
    hide CoreOk, WaitsOk;
    FitsAt(s, k.hand, t);
    MoveInv(s, k, t, ReapClaim);
  }

  lemma ResumeStoppedInv(s: Process, k: Track, t: Tid)
    requires InvAt(s, k) && Enabled(s, DoResumeStopped(t))
    ensures InvAt(Apply(s, DoResumeStopped(t)), k)
  {
    hide CoreOk, WaitsOk;
    FitsAt(s, k.hand, t);
    MoveInv(s, k, t, ReapTake);
  }

  lemma CheckLiveInv(s: Process, k: Track, t: Tid)
    requires InvAt(s, k) && Enabled(s, DoCheckLive(t))
    ensures InvAt(Apply(s, DoCheckLive(t)), k)
  {
    hide CoreOk, WaitsOk;
    FitsAt(s, k.hand, t);
    MoveInv(s, k, t, if s.live == 1 then Sole else ReapReserve);
  }

  lemma ExitInv(s: Process, k: Track, t: Tid)
    requires InvAt(s, k) && Enabled(s, DoExit(t))
    ensures InvAt(Apply(s, DoExit(t)), k)
  {
    hide CoreOk, WaitsOk, WaitFits, Go;
    LeavesFreely(s, k.hand, t);
    MoveInv(s, k, t, Exiting);
  }

  lemma LeavesFreely(s: Process, hand: set<Wid>, t: Tid)
    requires WaitsOk(s, hand) && Enabled(s, DoExit(t))
    ensures t in s.pc && WaitFits(s, hand, t, Exiting)
    ensures KeepsWaker(s.pc[t], Exiting) && FiresOwn(s.pc[t]) == FiresOwn(Exiting)
  {
    hide WaitsOk;
    FitsAt(s, hand, t);
  }

  // ------------------------------------------------------------- creation and reservations

  lemma CreateCore(s: Process, k: Track, t: Tid)
    requires SlotsOk(s.pc, s.slots, k.owner) && CrewsOk(s.pc, s.todo, s.mid, s.published) && t !in s.pc
    ensures SlotsOk(s.pc[t := User], s.slots, k.owner) && CrewsOk(s.pc[t := User], s.todo, s.mid, s.published)
  {
  }

  lemma TargetCreate(pc: Pcs, reap: Option<Reap>, reapActive: bool, hand: set<Wid>, t: Tid)
    requires TargetOk(pc, reap, reapActive, hand) && t !in pc
    ensures TargetOk(pc[t := User], reap, reapActive, hand)
  {
  }

  lemma DeadlineCreate(pc: Pcs, deadline: map<Tid, Option<nat>>, sleepers: set<Sleeper>, hand: set<Wid>, t: Tid)
    requires DeadlineOk(pc, deadline, sleepers, hand) && t !in pc
    ensures DeadlineOk(pc[t := User], deadline[t := None], sleepers, hand)
  {
  }

  lemma AccountCreate(pc: Pcs, live: int, reap: Option<Reap>, reapActive: bool, hand: set<Wid>, t: Tid)
    requires AccountOk(pc, live, reap, reapActive, hand) && t !in pc
    ensures AccountOk(pc[t := User], live + 1, reap, reapActive, hand)
  {
    OneMore(pc, t);
  }

  lemma OneMore(pc: Pcs, t: Tid)
    requires t !in pc
    ensures |pc[t := User]| == |pc| + 1 && (|pc| == 0 ==> pc == map[])
  {
    assert pc[t := User].Keys == pc.Keys + {t};
    assert |pc| == |pc.Keys|;
    if |pc| == 0 {
      assert pc.Keys == {};
    }
  }

  lemma CreateInv(s: Process, k: Track, t: Tid)
    requires InvAt(s, k) && Enabled(s, DoCreate(t))
    ensures InvAt(Apply(s, DoCreate(t)), k)
  {
    hide SlotsOk, FiringOk, KnownOk, CrewsOk, HandOk, ListedOk, EventOk, TargetOk, DeadlineOk, AccountOk;
    CreateCore(s, k, t);
    ListedMove(s.pc, s.registered, k.hand, t, User);
    EventMove(s.pc, s.ready, s.published, k.hand, t, User);
    TargetCreate(s.pc, s.reap, s.reapActive, k.hand, t);
    DeadlineCreate(s.pc, s.deadline, s.sleepers, k.hand, t);
    AccountCreate(s.pc, s.live, s.reap, s.reapActive, k.hand, t);
  }

  lemma DeadlineUser(pc: Pcs, deadline: map<Tid, Option<nat>>, sleepers: set<Sleeper>, hand: set<Wid>, t: Tid, d: Option<nat>)
    requires DeadlineOk(pc, deadline, sleepers, hand) && t in pc && pc[t] == User
    ensures DeadlineOk(pc, deadline[t := d], sleepers, hand)
  {
  }

  lemma SetDeadlineInv(s: Process, k: Track, t: Tid, d: Option<nat>)
    requires InvAt(s, k) && At(s, t, User)
    ensures InvAt(s.(deadline := s.deadline[t := d]), k)
  {
    hide SlotsOk, FiringOk, KnownOk, CrewsOk, HandOk, ListedOk, EventOk, TargetOk, DeadlineOk, AccountOk;
    DeadlineUser(s.pc, s.deadline, s.sleepers, k.hand, t, d);
  }

  lemma CallWaitInv(s: Process, k: Track, t: Tid, d: Option<nat>)
    requires InvAt(s, k) && Enabled(s, DoCallWait(t, d))
    ensures InvAt(Apply(s, DoCallWait(t, d)), k)
  {
    hide CoreOk, WaitsOk;
    var s1 := s.(deadline := s.deadline[t := d]);
    SetDeadlineInv(s, k, t, d);
    FitsAt(s1, k.hand, t);
    MoveInv(s1, k, t, LoopFlag);
  }

  lemma SlotsReserve(pc: Pcs, slots: map<Wid, Slot>, owner: map<Wid, Tid>, t: Tid, p: Pc, w: Wid)
    requires SlotsOk(pc, slots, owner) && t in pc && !HasWaker(pc[t]) && w !in slots
    requires BeforePark(p) && p.w == w
    ensures SlotsOk(pc[t := p], slots[w := Reserved], owner[w := t])
  {
  }

  lemma FiringReserve(slots: map<Wid, Slot>, fired: set<Wid>, mid: map<Actor, Wid>, firer: map<Wid, Actor>, w: Wid)
    requires FiringOk(slots, fired, mid, firer) && w !in slots
    ensures FiringOk(slots[w := Reserved], fired, mid, firer)
  {
  }

  /** Slots are only ever added. */
  lemma KnownSlots(slots: map<Wid, Slot>, slots': map<Wid, Slot>, todo: map<Actor, set<Wid>>, registered: set<Reg>,
                   sleepers: set<Sleeper>, reap: Option<Reap>)
    requires KnownOk(slots, todo, registered, sleepers, reap) && slots.Keys <= slots'.Keys
    ensures KnownOk(slots', todo, registered, sleepers, reap)
  {
    assert forall w :: w in slots ==> w in slots.Keys && w in slots'.Keys;
  }

  /** A fresh reservation for task `t`, which goes on to `p` holding it. */
  lemma NewSlotCore(s: Process, k: Track, t: Tid, p: Pc)
    requires CoreOk(s, k) && t in s.pc && !HasWaker(s.pc[t]) && !FiresOwn(s.pc[t]) && !FiresOwn(p)
    requires BeforePark(p) && p.w !in s.slots
    ensures CoreOk(s.(pc := s.pc[t := p], slots := s.slots[p.w := Reserved]), k.(owner := k.owner[p.w := t]))
  {
    hide SlotsOk, FiringOk, KnownOk, CrewsOk, HandOk;
    SlotsReserve(s.pc, s.slots, k.owner, t, p, p.w);
    FiringReserve(s.slots, s.fired, s.mid, k.firer, p.w);
    KnownSlots(s.slots, s.slots[p.w := Reserved], s.todo, s.registered, s.sleepers, s.reap);
    CrewsMove(s.pc, s.todo, s.mid, s.published, t, p);
  }

  lemma NewSlotWaits(s: Process, hand: set<Wid>, t: Tid, p: Pc)
    requires WaitsOk(s, hand) && t in s.pc
    requires (At(s, t, WaitReserve) && p.WaitSleep?) || (At(s, t, ReapReserve) && p.ReapArm?)
    ensures WaitsOk(s.(pc := s.pc[t := p], slots := s.slots[p.w := Reserved]), hand)
  {
    hide ListedOk, EventOk, TargetOk, DeadlineOk, AccountOk;
    FitsAt(s, hand, t);
    WaitsMove(s, hand, t, p);
  }

  lemma ReserveInv(s: Process, k: Track, t: Tid, w: Wid)
    requires InvAt(s, k) && Enabled(s, DoReserve(t, w))
    ensures InvAt(Apply(s, DoReserve(t, w)), k.(owner := k.owner[w := t]))
  {
    hide CoreOk, WaitsOk;
    NewSlotCore(s, k, t, WaitSleep(w));
    NewSlotWaits(s, k.hand, t, WaitSleep(w));
  }

  lemma ReapReserveInv(s: Process, k: Track, t: Tid, w: Wid)
    requires InvAt(s, k) && Enabled(s, DoReapReserve(t, w))
    ensures InvAt(Apply(s, DoReapReserve(t, w)), k.(owner := k.owner[w := t]))
  {
    hide CoreOk, WaitsOk;
    NewSlotCore(s, k, t, ReapArm(w));
    NewSlotWaits(s, k.hand, t, ReapArm(w));
  }

  lemma WakerKnown(pc: Pcs, slots: map<Wid, Slot>, owner: map<Wid, Tid>, t: Tid)
    requires SlotsOk(pc, slots, owner) && t in pc && HasWaker(pc[t])
    ensures pc[t].w in slots
  {
  }

  lemma KnownMore(slots: map<Wid, Slot>, todo: map<Actor, set<Wid>>, registered: set<Reg>, sleepers: set<Sleeper>,
                  reap: Option<Reap>, registered': set<Reg>, sleepers': set<Sleeper>, w: Wid)
    requires KnownOk(slots, todo, registered, sleepers, reap) && w in slots
    requires forall r :: r in registered' ==> r in registered || r.w == w
    requires forall sl :: sl in sleepers' ==> sl in sleepers || sl.w == w
    ensures KnownOk(slots, todo, registered', sleepers', reap)
  {
  }

  lemma SleeperInv(s: Process, k: Track, t: Tid, d: nat)
    requires InvAt(s, k) && t in s.pc && HasWaker(s.pc[t])
    ensures InvAt(s.(sleepers := s.sleepers + {Sleeper(d, s.pc[t].w)}), k)
  {
    hide SlotsOk, FiringOk, KnownOk, CrewsOk, HandOk, ListedOk, EventOk, TargetOk, DeadlineOk, AccountOk;
    var more := s.sleepers + {Sleeper(d, s.pc[t].w)};
    WakerKnown(s.pc, s.slots, k.owner, t);
    KnownMore(s.slots, s.todo, s.registered, s.sleepers, s.reap, s.registered, more, s.pc[t].w);
    DeadlineMore(s.pc, s.deadline, s.sleepers, more, k.hand);
  }

  lemma DeadlineMore(pc: Pcs, deadline: map<Tid, Option<nat>>, sleepers: set<Sleeper>, sleepers': set<Sleeper>, hand: set<Wid>)
    requires DeadlineOk(pc, deadline, sleepers, hand) && sleepers <= sleepers'
    ensures DeadlineOk(pc, deadline, sleepers', hand)
  {
  }

  lemma ListedMore(pc: Pcs, registered: set<Reg>, registered': set<Reg>, hand: set<Wid>)
    requires ListedOk(pc, registered, hand) && registered <= registered'
    ensures ListedOk(pc, registered', hand)
  {
  }

  lemma RegisteredInv(s: Process, k: Track, t: Tid)
    requires InvAt(s, k) && t in s.pc && HasWaker(s.pc[t])
    ensures InvAt(s.(registered := s.registered + {Reg(t, s.pc[t].w)}), k)
  {
    hide SlotsOk, FiringOk, KnownOk, CrewsOk, HandOk, ListedOk, EventOk, TargetOk, DeadlineOk, AccountOk;
    var more := s.registered + {Reg(t, s.pc[t].w)};
    WakerKnown(s.pc, s.slots, k.owner, t);
    KnownMore(s.slots, s.todo, s.registered, s.sleepers, s.reap, more, s.sleepers, s.pc[t].w);
    ListedMore(s.pc, s.registered, more, k.hand);
  }

  lemma SleepInv(s: Process, k: Track, t: Tid)
    requires InvAt(s, k) && Enabled(s, DoSleep(t))
    ensures InvAt(Apply(s, DoSleep(t)), k)
  {
    hide CoreOk, WaitsOk;
    var s1 := s;
    if s.deadline[t].Some? {
      SleeperInv(s, k, t, s.deadline[t].value);
      s1 := s.(sleepers := s.sleepers + {Sleeper(s.deadline[t].value, s.pc[t].w)});
    }
    FitsAt(s1, k.hand, t);
    MoveInv(s1, k, t, WaitRegister(s.pc[t].w));
  }

  lemma RegisterInv(s: Process, k: Track, t: Tid)
    requires InvAt(s, k) && Enabled(s, DoRegister(t))
    ensures InvAt(Apply(s, DoRegister(t)), k)
  {
    hide CoreOk, WaitsOk;
    var s1 := s.(registered := s.registered + {Reg(t, s.pc[t].w)});
    RegisteredInv(s, k, t);
    FitsAt(s1, k.hand, t);
    MoveInv(s1, k, t, Recheck(s.pc[t].w));
  }

  // ------------------------------------------------------------- firing

  /** Wakers in an actor's new batch come into hand; nothing leaves it. */
  lemma CatchHand(s: Process, k: Track, a: Actor, ws: set<Wid>)
    requires HandOk(s.fired, s.todo, k.hand, k.catcher) && a !in s.todo
    ensures HandOk(s.fired, s.todo[a := ws], Catch(k, a, ws).hand, Catch(k, a, ws).catcher)
  {
  }

  lemma ListsGrow(s: Process, hand: set<Wid>, more: set<Wid>)
    requires ListedOk(s.pc, s.registered, hand) && EventOk(s.pc, s.ready, s.published, hand)
    requires TargetOk(s.pc, s.reap, s.reapActive, hand)
    ensures ListedOk(s.pc, s.registered, hand + more) && EventOk(s.pc, s.ready, s.published, hand + more)
    ensures TargetOk(s.pc, s.reap, s.reapActive, hand + more)
  {
  }

  lemma DutiesGrow(s: Process, hand: set<Wid>, more: set<Wid>)
    requires DeadlineOk(s.pc, s.deadline, s.sleepers, hand) && AccountOk(s.pc, s.live, s.reap, s.reapActive, hand)
    ensures DeadlineOk(s.pc, s.deadline, s.sleepers, hand + more) && AccountOk(s.pc, s.live, s.reap, s.reapActive, hand + more)
  {
  }

  lemma HandGrows(s: Process, hand: set<Wid>, more: set<Wid>)
    requires WaitsOk(s, hand)
    ensures WaitsOk(s, hand + more)
  {
    hide ListedOk, EventOk, TargetOk, DeadlineOk, AccountOk;
    ListsGrow(s, hand, more);
    DutiesGrow(s, hand, more);
  }

  lemma CrewsStart(pc: Pcs, todo: map<Actor, set<Wid>>, mid: map<Actor, Wid>, published: set<nat>,
                   t: Tid, p: Pc, ws: set<Wid>)
    requires CrewsOk(pc, todo, mid, published) && t in pc && FiresOwn(p)
    ensures CrewsOk(pc[t := p], todo[OfTask(t) := ws], mid, published)
  {
  }

  lemma KnownBatch(slots: map<Wid, Slot>, todo: map<Actor, set<Wid>>, registered: set<Reg>, sleepers: set<Sleeper>,
                   reap: Option<Reap>, a: Actor, ws: set<Wid>)
    requires KnownOk(slots, todo, registered, sleepers, reap) && forall w :: w in ws ==> w in slots
    ensures KnownOk(slots, todo[a := ws], registered, sleepers, reap)
  {
  }

  lemma CrewsIdle(pc: Pcs, todo: map<Actor, set<Wid>>, mid: map<Actor, Wid>, published: set<nat>, t: Tid)
    requires CrewsOk(pc, todo, mid, published) && t in pc && !FiresOwn(pc[t])
    ensures OfTask(t) !in todo
  {
  }

  lemma SelfWakeCore(s: Process, k: Track, t: Tid, p: Pc)
    requires CoreOk(s, k) && t in s.pc && BeforePark(s.pc[t]) && !FiresOwn(s.pc[t])
    requires (p.WaitSelf? || p.ReapSelf?) && p.w == s.pc[t].w
    ensures CoreOk(SelfWakeIf(s, t, p.w, true, p, p), Catch(k, OfTask(t), {p.w}))
  {
    hide SlotsOk, FiringOk, KnownOk, CrewsOk, HandOk;
    CrewsIdle(s.pc, s.todo, s.mid, s.published, t);
    WakerKnown(s.pc, s.slots, k.owner, t);
    KnownBatch(s.slots, s.todo, s.registered, s.sleepers, s.reap, OfTask(t), {p.w});
    CatchHand(s, k, OfTask(t), {p.w});
    SlotsMove(s.pc, s.slots, k.owner, t, p);
    CrewsStart(s.pc, s.todo, s.mid, s.published, t, p, {p.w});
  }

  lemma SelfWakeInv(s: Process, k: Track, t: Tid, p: Pc)
    requires InvAt(s, k) && t in s.pc && BeforePark(s.pc[t]) && !FiresOwn(s.pc[t])
    requires (p.WaitSelf? && Listed(s.pc[t])) || (p.ReapSelf? && s.pc[t].ReapArm?)
    requires p.w == s.pc[t].w
    ensures InvAt(SelfWakeIf(s, t, p.w, true, p, p), Catch(k, OfTask(t), {p.w}))
  {
    hide CoreOk, ListedOk, EventOk, TargetOk, DeadlineOk, AccountOk;
    SelfWakeCore(s, k, t, p);
    HandGrows(s, k.hand, {p.w});
    FitsAt(s, k.hand + {p.w}, t);
    WaitsMove(s, k.hand + {p.w}, t, p);
  }

  lemma RecheckInv(s: Process, k: Track, t: Tid)
    requires InvAt(s, k) && Enabled(s, DoRecheck(t))
    ensures Inv(Apply(s, DoRecheck(t)))
  {
    hide CoreOk, WaitsOk;
    var w := s.pc[t].w;
    if ShouldWake(s, t) {
      SelfWakeInv(s, k, t, WaitSelf(w));
    } else {
      FitsAt(s, k.hand, t);
      MoveInv(s, k, t, RecheckFlag(w));
    }
  }

  lemma RecheckLockInv(s: Process, k: Track, t: Tid)
    requires InvAt(s, k) && Enabled(s, DoRecheckLock(t))
    ensures Inv(Apply(s, DoRecheckLock(t)))
  {
    hide CoreOk, WaitsOk;
    var w := s.pc[t].w;
    if Targeted(s.reap, t) {
      SelfWakeInv(s, k, t, WaitSelf(w));
    } else {
      FitsAt(s, k.hand, t);
      MoveInv(s, k, t, WaitBlock(w));
    }
  }

  lemma HandEnd(s: Process, k: Track, a: Actor)
    requires HandOk(s.fired, s.todo, k.hand, k.catcher) && Idle(s, a)
    ensures HandOk(s.fired, s.todo - {a}, k.hand, k.catcher)
  {
  }

  lemma KnownEnd(s: Process, a: Actor)
    requires KnownOk(s.slots, s.todo, s.registered, s.sleepers, s.reap)
    ensures KnownOk(s.slots, s.todo - {a}, s.registered, s.sleepers, s.reap)
  {
  }

  lemma CrewsEndThread(pc: Pcs, todo: map<Actor, set<Wid>>, mid: map<Actor, Wid>, published: set<nat>, n: nat)
    requires CrewsOk(pc, todo, mid, published) && OfThread(n) !in mid
    ensures CrewsOk(pc, todo - {OfThread(n)}, mid, published)
  {
  }

  lemma CrewsEnd(pc: Pcs, todo: map<Actor, set<Wid>>, mid: map<Actor, Wid>, published: set<nat>, t: Tid, p: Pc)
    requires CrewsOk(pc, todo, mid, published) && t in pc && !FiresOwn(p) && OfTask(t) !in mid
    ensures CrewsOk(pc[t := p], todo - {OfTask(t)}, mid, published)
  {
  }

  lemma EndFireCore(s: Process, k: Track, t: Tid)
    requires CoreOk(s, k) && Enabled(s, DoEndFire(t))
    ensures CoreOk(EndFire(s, t), k)
  {
    hide SlotsOk, FiringOk, KnownOk, CrewsOk, HandOk;
    var p := EndFire(s, t).pc[t];
    HandEnd(s, k, OfTask(t));
    KnownEnd(s, OfTask(t));
    SlotsMove(s.pc, s.slots, k.owner, t, p);
    CrewsEnd(s.pc, s.todo, s.mid, s.published, t, p);
  }

  lemma EndFireWaits(s: Process, hand: set<Wid>, t: Tid)
    requires WaitsOk(s, hand) && Enabled(s, DoEndFire(t))
    ensures WaitsOk(EndFire(s, t), hand)
  {
    hide ListedOk, EventOk, TargetOk, DeadlineOk, AccountOk;
    FitsAt(s, hand, t);
    WaitsMove(s, hand, t, EndFire(s, t).pc[t]);
  }

  lemma EndFireInv(s: Process, k: Track, t: Tid)
    requires InvAt(s, k) && Enabled(s, DoEndFire(t))
    ensures InvAt(Apply(s, DoEndFire(t)), k)
  {
    hide CoreOk, WaitsOk;
    EndFireCore(s, k, t);
    EndFireWaits(s, k.hand, t);
  }

  lemma EndBatchInv(s: Process, k: Track, n: nat)
    requires InvAt(s, k) && Enabled(s, DoEndBatch(n))
    ensures InvAt(Apply(s, DoEndBatch(n)), k)
  {
    hide SlotsOk, FiringOk, KnownOk, CrewsOk, HandOk, ListedOk, EventOk, TargetOk, DeadlineOk, AccountOk;
    HandEnd(s, k, OfThread(n));
    KnownEnd(s, OfThread(n));
    CrewsEndThread(s.pc, s.todo, s.mid, s.published, n);
  }

  lemma FiringFire(slots: map<Wid, Slot>, fired: set<Wid>, mid: map<Actor, Wid>, firer: map<Wid, Actor>, a: Actor, w: Wid)
    requires FiringOk(slots, fired, mid, firer) && w in slots && w !in fired && a !in mid
    ensures FiringOk(slots, fired + {w}, mid[a := w], firer[w := a])
  {
  }

  /** The actor's batch without `w`, which is fired now or was before. */
  lemma BatchFire(s: Process, k: Track, a: Actor, w: Wid)
    requires HandOk(s.fired, s.todo, k.hand, k.catcher) && a in s.todo
    ensures HandOk(s.fired + {w}, s.todo[a := s.todo[a] - {w}], k.hand, k.catcher)
  {
  }

  lemma KnownFire(s: Process, a: Actor, w: Wid)
    requires KnownOk(s.slots, s.todo, s.registered, s.sleepers, s.reap) && a in s.todo && w in s.todo[a]
    ensures w in s.slots
    ensures KnownOk(s.slots, s.todo[a := s.todo[a] - {w}], s.registered, s.sleepers, s.reap)
  {
  }

  lemma CrewsFire(s: Process, a: Actor, w: Wid)
    requires CrewsOk(s.pc, s.todo, s.mid, s.published) && a in s.todo
    ensures CrewsOk(s.pc, s.todo[a := s.todo[a] - {w}], s.mid, s.published)
    ensures CrewsOk(s.pc, s.todo[a := s.todo[a] - {w}], s.mid[a := w], s.published)
  {
  }

  lemma FireAgainInv(s: Process, k: Track, a: Actor, w: Wid)
    requires InvAt(s, k) && Enabled(s, DoFire(a, w)) && w in s.fired
    ensures InvAt(Apply(s, DoFire(a, w)), k)
  {
    hide SlotsOk, FiringOk, KnownOk, CrewsOk, HandOk, ListedOk, EventOk, TargetOk, DeadlineOk, AccountOk;
    BatchFire(s, k, a, w);
    assert s.fired + {w} == s.fired;
    KnownFire(s, a, w);
    CrewsFire(s, a, w);
  }

  lemma FireFirstInv(s: Process, k: Track, a: Actor, w: Wid)
    requires InvAt(s, k) && Enabled(s, DoFire(a, w)) && w !in s.fired
    ensures InvAt(Apply(s, DoFire(a, w)), k.(firer := k.firer[w := a]))
  {
    hide SlotsOk, FiringOk, KnownOk, CrewsOk, HandOk, ListedOk, EventOk, TargetOk, DeadlineOk, AccountOk;
    BatchFire(s, k, a, w);
    KnownFire(s, a, w);
    CrewsFire(s, a, w);
    FiringFire(s.slots, s.fired, s.mid, k.firer, a, w);
  }

  lemma FireInv(s: Process, k: Track, a: Actor, w: Wid)
    requires InvAt(s, k) && Enabled(s, DoFire(a, w))
    ensures Inv(Apply(s, DoFire(a, w)))
  {
    hide InvAt, Fire;
    if w in s.fired {
      FireAgainInv(s, k, a, w);
    } else {
      FireFirstInv(s, k, a, w);
    }
  }

  // ------------------------------------------------------------- the list of waiting tasks

  lemma ListedCleared(pc: Pcs, registered: set<Reg>, hand: set<Wid>, t: Tid)
    requires ListedOk(pc, registered, hand) && t in pc && !Listed(pc[t])
    ensures ListedOk(pc, (set r | r in registered && r.t != t), hand)
  {
  }

  lemma ClearedInv(s: Process, k: Track, t: Tid)
    requires InvAt(s, k) && t in s.pc && HasWaker(s.pc[t]) && !Listed(s.pc[t])
    ensures InvAt(s.(registered := set r | r in s.registered && r.t != t), k)
  {
    hide SlotsOk, FiringOk, KnownOk, CrewsOk, HandOk, ListedOk, EventOk, TargetOk, DeadlineOk, AccountOk;
    var rest := set r | r in s.registered && r.t != t;
    WakerKnown(s.pc, s.slots, k.owner, t);
    KnownMore(s.slots, s.todo, s.registered, s.sleepers, s.reap, rest, s.sleepers, s.pc[t].w);
    ListedCleared(s.pc, s.registered, k.hand, t);
  }

  lemma ClearInv(s: Process, k: Track, t: Tid)
    requires InvAt(s, k) && Enabled(s, DoClear(t))
    ensures InvAt(Apply(s, DoClear(t)), k)
  {
    hide CoreOk, WaitsOk;
    var s1 := s.(registered := set r | r in s.registered && r.t != t);
    ClearedInv(s, k, t);
    FitsAt(s1, k.hand, t);
    MoveInv(s1, k, t, LoopFlag);
  }

  /** Taking the list puts every listed waker in hand. */
  lemma AllInHand(pc: Pcs, registered: set<Reg>, hand: set<Wid>)
    requires ListedOk(pc, registered, hand)
    ensures ListedOk(pc, {}, hand + Wids(registered))
  {
    forall t | t in pc && Listed(pc[t])
      ensures pc[t].w in hand + Wids(registered)
    {
      if pc[t].w !in hand {
        assert Reg(t, pc[t].w) in registered;
      }
    }
  }

  lemma EventTaken(pc: Pcs, ready: set<Tid>, published: set<nat>, published': set<nat>, hand: set<Wid>)
    requires EventOk(pc, ready, published, hand) && ListedOk(pc, {}, hand)
    ensures EventOk(pc, ready, published', hand)
  {
  }

  lemma TargetTaken(pc: Pcs, reap: Option<Reap>, reapActive: bool, hand: set<Wid>)
    requires ListedOk(pc, {}, hand)
    ensures TargetOk(pc, reap, reapActive, hand)
  {
  }

  lemma KnownTaken(s: Process, a: Actor)
    requires KnownOk(s.slots, s.todo, s.registered, s.sleepers, s.reap)
    ensures KnownOk(s.slots, s.todo[a := Wids(s.registered)], {}, s.sleepers, s.reap)
  {
  }

  /** A thread starts on a batch; if it was a generator, its event is done with. */
  lemma CrewsThread(pc: Pcs, todo: map<Actor, set<Wid>>, mid: map<Actor, Wid>, published: set<nat>, n: nat, ws: set<Wid>)
    requires CrewsOk(pc, todo, mid, published)
    ensures CrewsOk(pc, todo[OfThread(n) := ws], mid, published - {n})
  {
  }

  lemma TakeInv(s: Process, k: Track, n: nat)
    requires InvAt(s, k) && Enabled(s, DoTake(n))
    ensures InvAt(Apply(s, DoTake(n)), Catch(k, OfThread(n), Wids(s.registered)))
  {
    hide SlotsOk, FiringOk, KnownOk, CrewsOk, HandOk, ListedOk, EventOk, TargetOk, DeadlineOk, AccountOk;
    var ws := Wids(s.registered);
    AllInHand(s.pc, s.registered, k.hand);
    CatchHand(s, k, OfThread(n), ws);
    HandGrows(s, k.hand, ws);
    EventTaken(s.pc, s.ready, s.published, s.published - {n}, k.hand + ws);
    KnownTaken(s, OfThread(n));
    CrewsThread(s.pc, s.todo, s.mid, s.published, n, ws);
  }

  lemma TakeOwnCore(s: Process, k: Track, t: Tid)
    requires CoreOk(s, k) && Enabled(s, DoTakeOwn(t))
    ensures CoreOk(TakeOwn(s, t), Catch(k, OfTask(t), Wids(s.registered)))
  {
    hide SlotsOk, FiringOk, KnownOk, CrewsOk, HandOk;
    CrewsIdle(s.pc, s.todo, s.mid, s.published, t);
    CatchHand(s, k, OfTask(t), Wids(s.registered));
    KnownTaken(s, OfTask(t));
    SlotsMove(s.pc, s.slots, k.owner, t, ReapFire);
    CrewsStart(s.pc, s.todo, s.mid, s.published, t, ReapFire, Wids(s.registered));
  }

  lemma TakeOwnWaits(s: Process, hand: set<Wid>, t: Tid)
    requires WaitsOk(s, hand) && Enabled(s, DoTakeOwn(t))
    ensures WaitsOk(TakeOwn(s, t), hand + Wids(s.registered))
  {
    hide ListedOk, EventOk, TargetOk, DeadlineOk, AccountOk;
    var all := hand + Wids(s.registered);
    AllInHand(s.pc, s.registered, hand);
    HandGrows(s, hand, Wids(s.registered));
    FitsAt(s, all, t);
    ListedMove(s.pc, {}, all, t, ReapFire);
    EventMove(s.pc, s.ready, s.published, all, t, ReapFire);
    TargetTaken(s.pc[t := ReapFire], s.reap, s.reapActive, all);
    DeadlineMove(s.pc, s.deadline, s.sleepers, all, t, ReapFire);
    AccountMove(s.pc, s.live, s.reap, s.reapActive, all, t, ReapFire);
  }

  lemma TakeOwnInv(s: Process, k: Track, t: Tid)
    requires InvAt(s, k) && Enabled(s, DoTakeOwn(t))
    ensures InvAt(Apply(s, DoTakeOwn(t)), Catch(k, OfTask(t), Wids(s.registered)))
  {
    hide CoreOk, WaitsOk;
    TakeOwnCore(s, k, t);
    TakeOwnWaits(s, k.hand, t);
  }

  lemma EventPublish(pc: Pcs, ready: set<Tid>, published: set<nat>, hand: set<Wid>, n: nat, ts: set<Tid>)
    requires EventOk(pc, ready, published, hand)
    ensures EventOk(pc, ready + ts, published + {n}, hand)
  {
    assert n in published + {n};
  }

  lemma CrewsPublish(pc: Pcs, todo: map<Actor, set<Wid>>, mid: map<Actor, Wid>, published: set<nat>, n: nat)
    requires CrewsOk(pc, todo, mid, published) && OfThread(n) !in todo
    ensures CrewsOk(pc, todo, mid, published + {n})
  {
  }

  lemma PublishInv(s: Process, k: Track, n: nat, ts: set<Tid>)
    requires InvAt(s, k) && Enabled(s, DoPublish(n, ts))
    ensures InvAt(Apply(s, DoPublish(n, ts)), k)
  {
    hide SlotsOk, FiringOk, KnownOk, CrewsOk, HandOk, ListedOk, EventOk, TargetOk, DeadlineOk, AccountOk;
    EventPublish(s.pc, s.ready, s.published, k.hand, n, ts);
    CrewsPublish(s.pc, s.todo, s.mid, s.published, n);
  }

  lemma DeadlineExpire(pc: Pcs, deadline: map<Tid, Option<nat>>, sleepers: set<Sleeper>, hand: set<Wid>, sl: Sleeper)
    requires DeadlineOk(pc, deadline, sleepers, hand) && sl.w in hand
    ensures DeadlineOk(pc, deadline, sleepers - {sl}, hand)
  {
  }

  lemma KnownExpire(s: Process, a: Actor, sl: Sleeper)
    requires KnownOk(s.slots, s.todo, s.registered, s.sleepers, s.reap) && sl in s.sleepers
    ensures KnownOk(s.slots, s.todo[a := {sl.w}], s.registered, s.sleepers - {sl}, s.reap)
  {
  }

  lemma ExpireInv(s: Process, k: Track, n: nat, sl: Sleeper)
    requires InvAt(s, k) && Enabled(s, DoExpire(n, sl))
    ensures InvAt(Apply(s, DoExpire(n, sl)), Catch(k, OfThread(n), {sl.w}))
  {
    hide SlotsOk, FiringOk, KnownOk, CrewsOk, HandOk, ListedOk, EventOk, TargetOk, DeadlineOk, AccountOk;
    CatchHand(s, k, OfThread(n), {sl.w});
    HandGrows(s, k.hand, {sl.w});
    DeadlineExpire(s.pc, s.deadline, s.sleepers, k.hand + {sl.w}, sl);
    KnownExpire(s, OfThread(n), sl);
    CrewsThread(s.pc, s.todo, s.mid, s.published, n, {sl.w});
    assert s.published - {n} == s.published;
  }

  lemma EventConsume(pc: Pcs, ready: set<Tid>, published: set<nat>, hand: set<Wid>, ts: set<Tid>)
    requires EventOk(pc, ready, published, hand)
    ensures EventOk(pc, ready - ts, published, hand)
  {
  }

  lemma ConsumeInv(s: Process, k: Track, ts: set<Tid>)
    requires InvAt(s, k)
    ensures InvAt(Apply(s, DoConsume(ts)), k)
  {
    hide SlotsOk, FiringOk, KnownOk, CrewsOk, HandOk, ListedOk, EventOk, TargetOk, DeadlineOk, AccountOk;
    EventConsume(s.pc, s.ready, s.published, k.hand, ts);
  }

  lemma TickInv(s: Process, k: Track, time: nat)
    requires InvAt(s, k) && Enabled(s, DoTick(time))
    ensures InvAt(Apply(s, DoTick(time)), k)
  {
    hide SlotsOk, FiringOk, KnownOk, CrewsOk, HandOk, ListedOk, EventOk, TargetOk, DeadlineOk, AccountOk;
  }

  // ------------------------------------------------------------- the park exchange

  lemma SlotsPark(pc: Pcs, slots: map<Wid, Slot>, owner: map<Wid, Tid>, t: Tid, p: Pc)
    requires SlotsOk(pc, slots, owner) && t in pc && BeforePark(pc[t]) && IsParked(p) && p.w == pc[t].w
    ensures SlotsOk(pc[t := p], slots[p.w := Occupied(t)], owner)
  {
  }

  lemma SlotsResume(pc: Pcs, slots: map<Wid, Slot>, owner: map<Wid, Tid>, t: Tid, p: Pc, w: Wid)
    requires SlotsOk(pc, slots, owner) && t in pc && HasWaker(pc[t]) && w == pc[t].w
    requires !BeforePark(p) && !IsParked(p) && (HasWaker(p) ==> p.w == w)
    ensures SlotsOk(pc[t := p], slots[w := Done], owner)
  {
  }

  lemma FiringOccupy(slots: map<Wid, Slot>, fired: set<Wid>, mid: map<Actor, Wid>, firer: map<Wid, Actor>, t: Tid, w: Wid)
    requires FiringOk(slots, fired, mid, firer) && w in slots && slots[w] == Reserved
    ensures FiringOk(slots[w := Occupied(t)], fired, mid, firer)
  {
  }

  lemma FiringBounce(slots: map<Wid, Slot>, fired: set<Wid>, mid: map<Actor, Wid>, firer: map<Wid, Actor>, w: Wid)
    requires FiringOk(slots, fired, mid, firer) && w in slots && slots[w] == Unparked
    ensures FiringOk(slots[w := Done], fired, mid, firer)
  {
  }

  lemma OccupyCore(s: Process, k: Track, t: Tid)
    requires CoreOk(s, k) && Enabled(s, DoPark(t)) && s.slots[s.pc[t].w] == Reserved
    ensures CoreOk(Park(s, t), k)
  {
    hide SlotsOk, FiringOk, KnownOk, CrewsOk, HandOk;
    var w, p := s.pc[t].w, Park(s, t).pc[t];
    SlotsPark(s.pc, s.slots, k.owner, t, p);
    FiringOccupy(s.slots, s.fired, s.mid, k.firer, t, w);
    KnownSlots(s.slots, s.slots[w := Occupied(t)], s.todo, s.registered, s.sleepers, s.reap);
    CrewsMove(s.pc, s.todo, s.mid, s.published, t, p);
  }

  lemma BounceCore(s: Process, k: Track, t: Tid)
    requires CoreOk(s, k) && Enabled(s, DoPark(t)) && s.slots[s.pc[t].w] == Unparked
    ensures CoreOk(Park(s, t), k)
  {
    hide SlotsOk, FiringOk, KnownOk, CrewsOk, HandOk;
    var w, p := s.pc[t].w, Resumed(s.pc[t]);
    SlotsResume(s.pc, s.slots, k.owner, t, p, w);
    FiringBounce(s.slots, s.fired, s.mid, k.firer, w);
    KnownSlots(s.slots, s.slots[w := Done], s.todo, s.registered, s.sleepers, s.reap);
    CrewsMove(s.pc, s.todo, s.mid, s.published, t, p);
  }

  lemma OccupyWaits(s: Process, hand: set<Wid>, t: Tid)
    requires Enabled(s, DoPark(t)) && s.slots[s.pc[t].w] == Reserved && WaitsOk(s, hand)
    ensures WaitsOk(Apply(s, DoPark(t)), hand)
  {
    hide ListedOk, EventOk, TargetOk, DeadlineOk, AccountOk;
    FitsAt(s, hand, t);
    WaitsMove(s, hand, t, Park(s, t).pc[t]);
  }

  lemma BounceWaits(s: Process, hand: set<Wid>, t: Tid)
    requires Enabled(s, DoPark(t)) && s.slots[s.pc[t].w] == Unparked && WaitsOk(s, hand)
    ensures WaitsOk(Apply(s, DoPark(t)), hand)
  {
    hide ListedOk, EventOk, TargetOk, DeadlineOk, AccountOk;
    FitsAt(s, hand, t);
    WaitsMove(s, hand, t, Resumed(s.pc[t]));
  }

  lemma ParkInv(s: Process, k: Track, t: Tid)
    requires InvAt(s, k) && Enabled(s, DoPark(t))
    ensures InvAt(Apply(s, DoPark(t)), k)
  {
    hide CoreOk, WaitsOk, Park;
    if s.slots[s.pc[t].w] == Reserved {
      OccupyCore(s, k, t);
      OccupyWaits(s, k.hand, t);
    } else {
      BounceCore(s, k, t);
      BounceWaits(s, k.hand, t);
    }
  }

  lemma FiringExchange(slots: map<Wid, Slot>, fired: set<Wid>, mid: map<Actor, Wid>, firer: map<Wid, Actor>, a: Actor, v: Slot)
    requires FiringOk(slots, fired, mid, firer) && a in mid && (v == Unparked || v == Done)
    ensures FiringOk(slots[mid[a] := v], fired, mid - {a}, firer)
  {
  }

  lemma SlotsUnpark(pc: Pcs, slots: map<Wid, Slot>, owner: map<Wid, Tid>, w: Wid)
    requires SlotsOk(pc, slots, owner) && w in slots && slots[w] == Reserved
    ensures SlotsOk(pc, slots[w := Unparked], owner)
  {
  }

  lemma CrewsExchange(pc: Pcs, todo: map<Actor, set<Wid>>, mid: map<Actor, Wid>, published: set<nat>, a: Actor)
    requires CrewsOk(pc, todo, mid, published)
    ensures CrewsOk(pc, todo, mid - {a}, published)
  {
  }

  lemma UnparkInv(s: Process, k: Track, a: Actor)
    requires Enabled(s, DoExchange(a)) && !s.slots[s.mid[a]].Occupied? && InvAt(s, k)
    ensures InvAt(Apply(s, DoExchange(a)), k)
  {
    hide SlotsOk, FiringOk, KnownOk, CrewsOk, HandOk, ListedOk, EventOk, TargetOk, DeadlineOk, AccountOk;
    var w := s.mid[a];
    SlotsUnpark(s.pc, s.slots, k.owner, w);
    FiringExchange(s.slots, s.fired, s.mid, k.firer, a, Unparked);
    KnownSlots(s.slots, s.slots[w := Unparked], s.todo, s.registered, s.sleepers, s.reap);
    CrewsExchange(s.pc, s.todo, s.mid, s.published, a);
  }

  lemma OccupantParked(pc: Pcs, slots: map<Wid, Slot>, owner: map<Wid, Tid>, w: Wid, t: Tid)
    requires SlotsOk(pc, slots, owner) && w in slots && slots[w] == Occupied(t)
    ensures t in pc && IsParked(pc[t]) && pc[t].w == w
  {
  }

  lemma WakeCore(s: Process, k: Track, a: Actor, t: Tid)
    requires CoreOk(s, k) && Enabled(s, DoExchange(a)) && s.slots[s.mid[a]] == Occupied(t)
    ensures t in s.pc && IsParked(s.pc[t]) && CoreOk(Exchange(s, a), k)
  {
    hide SlotsOk, FiringOk, KnownOk, CrewsOk, HandOk;
    var w := s.mid[a];
    OccupantParked(s.pc, s.slots, k.owner, w, t);
    var p := Resumed(s.pc[t]);
    FiringExchange(s.slots, s.fired, s.mid, k.firer, a, Done);
    SlotsResume(s.pc, s.slots, k.owner, t, p, w);
    KnownSlots(s.slots, s.slots[w := Done], s.todo, s.registered, s.sleepers, s.reap);
    CrewsMove(s.pc, s.todo, s.mid, s.published, t, p);
    CrewsExchange(s.pc[t := p], s.todo, s.mid, s.published, a);
  }

  lemma WakeWaits(s: Process, hand: set<Wid>, a: Actor, t: Tid)
    requires Enabled(s, DoExchange(a)) && s.slots[s.mid[a]] == Occupied(t)
    requires t in s.pc && IsParked(s.pc[t]) && WaitsOk(s, hand)
    ensures WaitsOk(Exchange(s, a), hand)
  {
    hide ListedOk, EventOk, TargetOk, DeadlineOk, AccountOk;
    FitsAt(s, hand, t);
    WaitsMove(s, hand, t, Resumed(s.pc[t]));
  }

  lemma WakeInv(s: Process, k: Track, a: Actor, t: Tid)
    requires Enabled(s, DoExchange(a)) && s.slots[s.mid[a]] == Occupied(t) && InvAt(s, k)
    ensures InvAt(Apply(s, DoExchange(a)), k)
  {
    hide CoreOk, WaitsOk, Exchange;
    WakeCore(s, k, a, t);
    WakeWaits(s, k.hand, a, t);
  }

  lemma ExchangeInv(s: Process, k: Track, a: Actor)
    requires InvAt(s, k) && Enabled(s, DoExchange(a))
    ensures InvAt(Apply(s, DoExchange(a)), k)
  {
    hide InvAt, Exchange;
    match s.slots[s.mid[a]]
    case Occupied(t) => WakeInv(s, k, a, t);
    case _ => UnparkInv(s, k, a);
  }

  // ------------------------------------------------------------- the exec reap

  lemma KnownReap(s: Process, reap: Option<Reap>)
    requires KnownOk(s.slots, s.todo, s.registered, s.sleepers, s.reap)
    requires reap.Some? && reap.value.waiter.Some? ==> reap.value.waiter.value in s.slots
    ensures KnownOk(s.slots, s.todo, s.registered, s.sleepers, reap)
  {
  }

  /** The first claim makes this task the only keeper: no other task is inside a reap. */
  lemma AccountClaim(pc: Pcs, live: int, hand: set<Wid>, t: Tid)
    requires AccountOk(pc, live, None, false, hand) && t in pc
    ensures AccountOk(pc[t := ReapResume], live, Some(Reap(t, None)), true, hand)
  {
    assert pc[t := ReapResume].Keys == pc.Keys;
  }

  lemma NoReapInactive(s: Process, hand: set<Wid>)
    requires AccountOk(s.pc, s.live, s.reap, s.reapActive, hand) && s.reap.None?
    ensures !s.reapActive
  {
  }

  lemma FirstClaimWaits(s: Process, hand: set<Wid>, t: Tid)
    requires WaitsOk(s, hand) && Enabled(s, DoClaim(t)) && s.reap.None?
    ensures WaitsOk(Claim(s, t), hand)
  {
    hide ListedOk, EventOk, TargetOk, DeadlineOk, AccountOk;
    FitsAt(s, hand, t);
    NoReapInactive(s, hand);
    ListedMove(s.pc, s.registered, hand, t, ReapResume);
    EventMove(s.pc, s.ready, s.published, hand, t, ReapResume);
    assert TargetOk(s.pc[t := ReapResume], Some(Reap(t, None)), true, hand) by {
      TargetComing(s.pc[t := ReapResume], Some(Reap(t, None)), hand);
    }
    DeadlineMove(s.pc, s.deadline, s.sleepers, hand, t, ReapResume);
    AccountClaim(s.pc, s.live, hand, t);
  }

  lemma TargetComing(pc: Pcs, reap: Option<Reap>, hand: set<Wid>)
    requires ReaperComing(pc, reap)
    ensures TargetOk(pc, reap, true, hand)
  {
  }

  lemma FirstClaimCore(s: Process, k: Track, t: Tid)
    requires CoreOk(s, k) && Enabled(s, DoClaim(t)) && s.reap.None?
    ensures CoreOk(Claim(s, t), k)
  {
    hide SlotsOk, FiringOk, KnownOk, CrewsOk, HandOk;
    SlotsMove(s.pc, s.slots, k.owner, t, ReapResume);
    CrewsMove(s.pc, s.todo, s.mid, s.published, t, ReapResume);
    KnownReap(s, Some(Reap(t, None)));
  }

  lemma FirstClaimInv(s: Process, k: Track, t: Tid)
    requires InvAt(s, k) && Enabled(s, DoClaim(t)) && s.reap.None?
    ensures InvAt(Apply(s, DoClaim(t)), k)
  {
    hide CoreOk, WaitsOk;
    FirstClaimCore(s, k, t);
    FirstClaimWaits(s, k.hand, t);
  }

  lemma ClaimInv(s: Process, k: Track, t: Tid)
    requires InvAt(s, k) && Enabled(s, DoClaim(t))
    ensures InvAt(Apply(s, DoClaim(t)), k)
  {
    if s.reap.None? {
      FirstClaimInv(s, k, t);
    } else {
      LaterClaimInv(s, k, t, if Targeted(s.reap, t) then Exiting else ReapResume);
    }
  }

  lemma LaterClaimInv(s: Process, k: Track, t: Tid, p: Pc)
    requires InvAt(s, k) && At(s, t, ReapClaim) && s.reap.Some? && p == if Targeted(s.reap, t) then Exiting else ReapResume
    ensures InvAt(Claim(s, t), k)
  {
    hide CoreOk, WaitsOk;
    FitsAt(s, k.hand, t);
    MoveInv(s, k, t, p);
    assert Claim(s, t) == Go(s, t, p);
  }

  lemma KeeperArms(pc: Pcs, reap: Option<Reap>, live: int, reapActive: bool, hand: set<Wid>, t: Tid)
    requires AccountOk(pc, live, reap, reapActive, hand) && t in pc && pc[t].ReapArm?
    ensures reap.Some? && reap.value.keeper == t && reapActive
  {
  }

  lemma TargetWaiter(pc: Pcs, reap: Reap, hand: set<Wid>, t: Tid, w: Wid)
    requires TargetOk(pc, Some(reap), true, hand) && reap.keeper == t && t in pc && pc[t].ReapArm?
    ensures TargetOk(pc[t := ReapBlock(w)], Some(Reap(t, Some(w))), true, hand)
  {
  }

  lemma AccountWaiter(pc: Pcs, live: int, reap: Reap, hand: set<Wid>, t: Tid)
    requires AccountOk(pc, live, Some(reap), true, hand) && live != 1 && reap.keeper == t && t in pc && pc[t].ReapArm?
    ensures AccountOk(pc[t := ReapBlock(pc[t].w)], live, Some(Reap(t, Some(pc[t].w))), true, hand)
  {
    assert pc[t := ReapBlock(pc[t].w)].Keys == pc.Keys;
  }

  lemma WaiterWaits(s: Process, hand: set<Wid>, t: Tid)
    requires Enabled(s, DoArm(t)) && s.live != 1 && WaitsOk(s, hand)
    ensures s.reap.Some? && s.reap.value.keeper == t
    ensures WaitsOk(Arm(s, t), hand)
  {
    hide ListedOk, EventOk, TargetOk, DeadlineOk, AccountOk;
    var w := s.pc[t].w;
    FitsAt(s, hand, t);
    KeeperArms(s.pc, s.reap, s.live, s.reapActive, hand, t);
    ListedMove(s.pc, s.registered, hand, t, ReapBlock(w));
    EventMove(s.pc, s.ready, s.published, hand, t, ReapBlock(w));
    TargetWaiter(s.pc, s.reap.value, hand, t, w);
    DeadlineMove(s.pc, s.deadline, s.sleepers, hand, t, ReapBlock(w));
    AccountWaiter(s.pc, s.live, s.reap.value, hand, t);
  }

  lemma WaiterCore(s: Process, k: Track, t: Tid)
    requires CoreOk(s, k) && Enabled(s, DoArm(t)) && s.live != 1 && s.reap.Some?
    ensures CoreOk(Arm(s, t), k)
  {
    hide SlotsOk, FiringOk, KnownOk, CrewsOk, HandOk;
    var p := ReapBlock(s.pc[t].w);
    WakerKnown(s.pc, s.slots, k.owner, t);
    KnownReap(s, Some(Reap(s.reap.value.keeper, Some(s.pc[t].w))));
    SlotsMove(s.pc, s.slots, k.owner, t, p);
    CrewsMove(s.pc, s.todo, s.mid, s.published, t, p);
  }

  lemma WaiterInv(s: Process, k: Track, t: Tid)
    requires InvAt(s, k) && Enabled(s, DoArm(t)) && s.live != 1
    ensures InvAt(Apply(s, DoArm(t)), k)
  {
    hide CoreOk, WaitsOk;
    WaiterWaits(s, k.hand, t);
    WaiterCore(s, k, t);
  }

  lemma ArmInv(s: Process, k: Track, t: Tid)
    requires InvAt(s, k) && Enabled(s, DoArm(t))
    ensures Inv(Apply(s, DoArm(t)))
  {
    hide CoreOk, WaitsOk, InvAt;
    if s.live == 1 {
      SelfWakeInv(s, k, t, ReapSelf(s.pc[t].w));
    } else {
      WaiterInv(s, k, t);
    }
  }

  lemma AccountFinish(pc: Pcs, live: int, reap: Option<Reap>, reapActive: bool, hand: set<Wid>, t: Tid)
    requires AccountOk(pc, live, reap, reapActive, hand) && t in pc && pc[t] == Sole
    ensures AccountOk(pc[t := Finish], live, reap, false, hand)
  {
    assert pc[t := Finish].Keys == pc.Keys;
  }

  lemma AccountDone(pc: Pcs, live: int, reap: Option<Reap>, reapActive: bool, hand: set<Wid>, t: Tid)
    requires AccountOk(pc, live, reap, reapActive, hand) && t in pc && pc[t] == Finish
    ensures !reapActive && AccountOk(pc[t := User], live, None, false, hand)
  {
    assert pc[t := User].Keys == pc.Keys;
  }

  lemma TargetInactive(pc: Pcs, reap: Option<Reap>, hand: set<Wid>)
    ensures TargetOk(pc, reap, false, hand)
  {
  }

  lemma FinishFlagWaits(s: Process, hand: set<Wid>, t: Tid)
    requires WaitsOk(s, hand) && Enabled(s, DoFinishFlag(t))
    ensures WaitsOk(FinishFlag(s, t), hand)
  {
    hide ListedOk, EventOk, TargetOk, DeadlineOk, AccountOk;
    FitsAt(s, hand, t);
    ListedMove(s.pc, s.registered, hand, t, Finish);
    EventMove(s.pc, s.ready, s.published, hand, t, Finish);
    TargetInactive(s.pc[t := Finish], s.reap, hand);
    DeadlineMove(s.pc, s.deadline, s.sleepers, hand, t, Finish);
    AccountFinish(s.pc, s.live, s.reap, s.reapActive, hand, t);
  }

  lemma FinishFlagCore(s: Process, k: Track, t: Tid)
    requires CoreOk(s, k) && Enabled(s, DoFinishFlag(t))
    ensures CoreOk(FinishFlag(s, t), k)
  {
    hide SlotsOk, FiringOk, KnownOk, CrewsOk, HandOk;
    SlotsMove(s.pc, s.slots, k.owner, t, Finish);
    CrewsMove(s.pc, s.todo, s.mid, s.published, t, Finish);
  }

  lemma FinishFlagInv(s: Process, k: Track, t: Tid)
    requires InvAt(s, k) && Enabled(s, DoFinishFlag(t))
    ensures InvAt(Apply(s, DoFinishFlag(t)), k)
  {
    hide CoreOk, WaitsOk;
    FinishFlagCore(s, k, t);
    FinishFlagWaits(s, k.hand, t);
  }

  lemma FinishReapWaits(s: Process, hand: set<Wid>, t: Tid)
    requires WaitsOk(s, hand) && Enabled(s, DoFinishReap(t))
    ensures WaitsOk(FinishReap(s, t), hand)
  {
    hide ListedOk, EventOk, TargetOk, DeadlineOk, AccountOk;
    FitsAt(s, hand, t);
    ListedMove(s.pc, s.registered, hand, t, User);
    EventMove(s.pc, s.ready, s.published, hand, t, User);
    TargetInactive(s.pc[t := User], None, hand);
    DeadlineMove(s.pc, s.deadline, s.sleepers, hand, t, User);
    AccountDone(s.pc, s.live, s.reap, s.reapActive, hand, t);
  }

  lemma FinishReapCore(s: Process, k: Track, t: Tid)
    requires CoreOk(s, k) && Enabled(s, DoFinishReap(t))
    ensures CoreOk(FinishReap(s, t), k)
  {
    hide SlotsOk, FiringOk, KnownOk, CrewsOk, HandOk;
    SlotsMove(s.pc, s.slots, k.owner, t, User);
    CrewsMove(s.pc, s.todo, s.mid, s.published, t, User);
    KnownReap(s, None);
  }

  lemma FinishReapInv(s: Process, k: Track, t: Tid)
    requires InvAt(s, k) && Enabled(s, DoFinishReap(t))
    ensures InvAt(Apply(s, DoFinishReap(t)), k)
  {
    hide CoreOk, WaitsOk;
    FinishReapCore(s, k, t);
    FinishReapWaits(s, k.hand, t);
  }

  lemma SlotsRetire(pc: Pcs, slots: map<Wid, Slot>, owner: map<Wid, Tid>, t: Tid)
    requires SlotsOk(pc, slots, owner) && t in pc && pc[t] == Exiting
    ensures SlotsOk(pc - {t}, slots, owner)
  {
  }

  lemma CrewsRetire(pc: Pcs, todo: map<Actor, set<Wid>>, mid: map<Actor, Wid>, published: set<nat>, t: Tid)
    requires CrewsOk(pc, todo, mid, published) && t in pc && pc[t] == Exiting
    ensures CrewsOk(pc - {t}, todo, mid, published)
  {
  }

  lemma ListsRetire(s: Process, hand: set<Wid>, t: Tid)
    requires ListedOk(s.pc, s.registered, hand) && EventOk(s.pc, s.ready, s.published, hand)
    requires DeadlineOk(s.pc, s.deadline, s.sleepers, hand)
    ensures ListedOk(s.pc - {t}, s.registered, hand) && EventOk(s.pc - {t}, s.ready, s.published, hand)
    ensures DeadlineOk(s.pc - {t}, s.deadline, s.sleepers, hand)
  {
  }

  lemma TargetRetire(pc: Pcs, reap: Option<Reap>, reapActive: bool, hand: set<Wid>, t: Tid)
    requires TargetOk(pc, reap, reapActive, hand) && t in pc && pc[t] == Exiting
    ensures TargetOk(pc - {t}, reap, reapActive, hand)
  {
  }

  /** A reaper about to park is woken by the sibling that leaves it alone. */
  lemma AccountRetire(pc: Pcs, live: int, reap: Option<Reap>, reapActive: bool, hand: set<Wid>, t: Tid)
    requires AccountOk(pc, live, reap, reapActive, hand) && t in pc && pc[t] == Exiting
    requires live == 2 && reap.Some? && reap.value.waiter.Some? ==> reap.value.waiter.value in hand
    ensures AccountOk(pc - {t}, live - 1, reap, reapActive, hand)
  {
    assert (pc - {t}).Keys == pc.Keys - {t};
    assert |pc| == |pc.Keys|;
  }

  lemma RetireWaits(s: Process, hand: set<Wid>, t: Tid)
    requires WaitsOk(s, hand) && At(s, t, Exiting)
    requires LastSibling(s) ==> s.reap.value.waiter.value in hand
    ensures WaitsOk(s.(pc := s.pc - {t}, live := s.live - 1), hand)
  {
    hide ListedOk, EventOk, TargetOk, DeadlineOk, AccountOk;
    ListsRetire(s, hand, t);
    TargetRetire(s.pc, s.reap, s.reapActive, hand, t);
    AccountRetire(s.pc, s.live, s.reap, s.reapActive, hand, t);
  }

  /** The waiter is taken once the wakers it names are in hand. */
  lemma AccountTaken(pc: Pcs, live: int, reap: Reap, reapActive: bool, hand: set<Wid>)
    requires AccountOk(pc, live, Some(reap), reapActive, hand) && live == 1
    ensures AccountOk(pc, live, Some(Reap(reap.keeper, None)), reapActive, hand)
  {
  }

  lemma TargetTakenWaiter(pc: Pcs, reap: Reap, reapActive: bool, hand: set<Wid>)
    requires TargetOk(pc, Some(reap), reapActive, hand)
    ensures TargetOk(pc, Some(Reap(reap.keeper, None)), reapActive, hand)
  {
  }

  lemma WaiterKnown(s: Process, w: Wid)
    requires KnownOk(s.slots, s.todo, s.registered, s.sleepers, s.reap) && s.reap.Some? && s.reap.value.waiter == Some(w)
    ensures w in s.slots
  {
  }

  lemma LastRetireCore(s: Process, k: Track, t: Tid, n: nat)
    requires CoreOk(s, k) && Enabled(s, DoRetire(t, n)) && LastSibling(s)
    ensures CoreOk(Retire(s, t, n), Catch(k, OfThread(n), {s.reap.value.waiter.value}))
  {
    hide SlotsOk, FiringOk, KnownOk, CrewsOk, HandOk;
    var w := s.reap.value.waiter.value;
    SlotsRetire(s.pc, s.slots, k.owner, t);
    CrewsRetire(s.pc, s.todo, s.mid, s.published, t);
    CrewsThread(s.pc - {t}, s.todo, s.mid, s.published, n, {w});
    assert s.published - {n} == s.published;
    CatchHand(s, k, OfThread(n), {w});
    WaiterKnown(s, w);
    KnownBatch(s.slots, s.todo, s.registered, s.sleepers, s.reap, OfThread(n), {w});
    KnownReap(s.(todo := s.todo[OfThread(n) := {w}]), Some(Reap(s.reap.value.keeper, None)));
  }

  lemma LastRetireWaits(s: Process, hand: set<Wid>, t: Tid, n: nat)
    requires WaitsOk(s, hand) && Enabled(s, DoRetire(t, n)) && LastSibling(s)
    ensures WaitsOk(Retire(s, t, n), hand + {s.reap.value.waiter.value})
  {
    hide ListedOk, EventOk, TargetOk, DeadlineOk, AccountOk;
    var all := hand + {s.reap.value.waiter.value};
    HandGrows(s, hand, {s.reap.value.waiter.value});
    RetireWaits(s, all, t);
    TargetTakenWaiter(s.pc - {t}, s.reap.value, s.reapActive, all);
    AccountTaken(s.pc - {t}, s.live - 1, s.reap.value, s.reapActive, all);
  }

  lemma LastRetireInv(s: Process, k: Track, t: Tid, n: nat)
    requires InvAt(s, k) && Enabled(s, DoRetire(t, n)) && LastSibling(s)
    ensures InvAt(Apply(s, DoRetire(t, n)), Catch(k, OfThread(n), {s.reap.value.waiter.value}))
  {
    hide CoreOk, WaitsOk;
    LastRetireCore(s, k, t, n);
    LastRetireWaits(s, k.hand, t, n);
  }

  lemma OtherRetireInv(s: Process, k: Track, t: Tid, n: nat)
    requires InvAt(s, k) && Enabled(s, DoRetire(t, n)) && !LastSibling(s)
    ensures InvAt(Apply(s, DoRetire(t, n)), k)
  {
    hide SlotsOk, FiringOk, KnownOk, CrewsOk, HandOk, WaitsOk;
    SlotsRetire(s.pc, s.slots, k.owner, t);
    CrewsRetire(s.pc, s.todo, s.mid, s.published, t);
    RetireWaits(s, k.hand, t);
  }

  lemma RetireInv(s: Process, k: Track, t: Tid, n: nat)
    requires InvAt(s, k) && Enabled(s, DoRetire(t, n))
    ensures Inv(Apply(s, DoRetire(t, n)))
  {
    hide InvAt, Retire;
    if LastSibling(s) {
      LastRetireInv(s, k, t, n);
    } else {
      OtherRetireInv(s, k, t, n);
    }
  }

  // ------------------------------------------------------------- every run

  predicate OfWait(e: Step) {
    || e.DoCallWait? || e.DoLoopFlag? || e.DoLoopLock? || e.DoLoopCheck? || e.DoReserve? || e.DoSleep?
    || e.DoRegister? || e.DoRecheck? || e.DoRecheckFlag? || e.DoRecheckLock? || e.DoEndFire? || e.DoPark?
    || e.DoClear?
  }

  predicate OfReap(e: Step) {
    || e.DoCallReap? || e.DoClaim? || e.DoResumeStopped? || e.DoTakeOwn? || e.DoCheckLive?
    || e.DoReapReserve? || e.DoArm? || e.DoFinishFlag? || e.DoFinishReap?
  }

  lemma WaitStepInv(s: Process, k: Track, e: Step)
    requires InvAt(s, k) && Enabled(s, e) && OfWait(e)
    ensures Inv(Apply(s, e))
  {
    hide InvAt, Apply;
    match e
    case DoCallWait(t, d) => CallWaitInv(s, k, t, d);
    case DoLoopFlag(t) => LoopFlagInv(s, k, t);
    case DoLoopLock(t) => LoopLockInv(s, k, t);
    case DoLoopCheck(t) => LoopCheckInv(s, k, t);
    case DoReserve(t, w) => ReserveInv(s, k, t, w);
    case DoSleep(t) => SleepInv(s, k, t);
    case DoRegister(t) => RegisterInv(s, k, t);
    case DoRecheck(t) => RecheckInv(s, k, t);
    case DoRecheckFlag(t) => RecheckFlagInv(s, k, t);
    case DoRecheckLock(t) => RecheckLockInv(s, k, t);
    case DoEndFire(t) => EndFireInv(s, k, t);
    case DoPark(t) => ParkInv(s, k, t);
    case DoClear(t) => ClearInv(s, k, t);
  }

  lemma ReapStepInv(s: Process, k: Track, e: Step)
    requires InvAt(s, k) && Enabled(s, e) && OfReap(e)
    ensures Inv(Apply(s, e))
  {
    hide InvAt, Apply;
    match e
    case DoCallReap(t) => CallReapInv(s, k, t);
    case DoClaim(t) => ClaimInv(s, k, t);
    case DoResumeStopped(t) => ResumeStoppedInv(s, k, t);
    case DoTakeOwn(t) => TakeOwnInv(s, k, t);
    case DoCheckLive(t) => CheckLiveInv(s, k, t);
    case DoReapReserve(t, w) => ReapReserveInv(s, k, t, w);
    case DoArm(t) => ArmInv(s, k, t);
    case DoFinishFlag(t) => FinishFlagInv(s, k, t);
    case DoFinishReap(t) => FinishReapInv(s, k, t);
  }

  lemma OtherStepInv(s: Process, k: Track, e: Step)
    requires InvAt(s, k) && Enabled(s, e) && !OfWait(e) && !OfReap(e)
    ensures Inv(Apply(s, e))
  {
    hide InvAt, Apply;
    match e
    case DoCreate(t) => CreateInv(s, k, t);
    case DoExit(t) => ExitInv(s, k, t);
    case DoRetire(t, n) => RetireInv(s, k, t, n);
    case DoPublish(n, ts) => PublishInv(s, k, n, ts);
    case DoTake(n) => TakeInv(s, k, n);
    case DoConsume(ts) => ConsumeInv(s, k, ts);
    case DoExpire(n, sl) => ExpireInv(s, k, n, sl);
    case DoTick(time) => TickInv(s, k, time);
    case DoFire(a, w) => FireInv(s, k, a, w);
    case DoExchange(a) => ExchangeInv(s, k, a);
    case DoEndBatch(n) => EndBatchInv(s, k, n);
  }

  lemma StepInv(s: Process, e: Step)
    requires Inv(s) && Enabled(s, e)
    ensures Inv(Apply(s, e))
  {
    hide InvAt, Apply, Enabled, OfWait, OfReap;
    var k :| InvAt(s, k);
    if OfWait(e) {
      WaitStepInv(s, k, e);
    } else if OfReap(e) {
      ReapStepInv(s, k, e);
    } else {
      OtherStepInv(s, k, e);
    }
  }

  lemma EmptyInv()
    ensures Inv(EMPTY)
  {
    assert InvAt(EMPTY, Track(map[], map[], {}, map[]));
  }

  lemma {:induction false} RunInv(run: seq<Process>, i: nat)
    requires IsRun(run) && i < |run|
    ensures Inv(run[i])
  {
    if i == 0 {
      EmptyInv();
    } else {
      hide InvAt, Enabled, Apply;
      RunInv(run, i - 1);
      assert Next(run[i - 1], run[i - 1 + 1]);
      var e :| Enabled(run[i - 1], e) && Apply(run[i - 1], e) == run[i];
      StepInv(run[i - 1], e);
    }
  }

  // ------------------------------------------------------------- what callers may rely on

  /** Some thread has the waker in its batch, or has swapped its flag and is about to exchange its slot. */
  ghost predicate OnItsWay(s: Process, w: Wid) {
    exists a :: a in s.todo && (w in s.todo[a] || (a in s.mid && s.mid[a] == w))
  }

  /** A parked task can always be reached: its waker is listed or on its way. */
  ghost predicate Reachable(s: Process) {
    forall t, w :: At(s, t, WaitParked(w)) ==> Reg(t, w) in s.registered || OnItsWay(s, w)
  }

  /** A task is never left parked on a condition that holds. */
  ghost predicate NoMissedEvent(s: Process) {
    forall t, w :: At(s, t, WaitParked(w)) && t in s.ready ==> s.published != {} || OnItsWay(s, w)
  }

  /** ... or while an exec reap targets it. */
  ghost predicate NoMissedReap(s: Process) {
    forall t, w :: At(s, t, WaitParked(w)) && s.reapActive && Targeted(s.reap, t) ==>
      ReaperComing(s.pc, s.reap) || OnItsWay(s, w)
  }

  /** ... and its deadline stays armed until the waker is fired. */
  ghost predicate NoMissedDeadline(s: Process) {
    forall t, w :: At(s, t, WaitParked(w)) ==>
      t in s.deadline && (s.deadline[t].Some? ==> Sleeper(s.deadline[t].value, w) in s.sleepers || OnItsWay(s, w))
  }

  ghost predicate LiveCounted(s: Process) {
    s.live == |s.pc|
  }

  ghost predicate OneKeeper(s: Process) {
    forall t :: t in s.pc && InReap(s.pc[t]) ==> s.reap.Some? && s.reap.value.keeper == t
  }

  /** A reaper parked although it is the last task has its waker on its way. */
  ghost predicate ReaperNotStranded(s: Process) {
    forall t, w :: At(s, t, ReapParked(w)) && s.live == 1 ==> OnItsWay(s, w)
  }

  /** Both sides of the park exchange always find a slot state they expect. */
  ghost predicate ExchangesDefined(s: Process) {
    && (forall t, w :: At(s, t, WaitBlock(w)) || At(s, t, ReapBlock(w)) ==> Enabled(s, DoPark(t)))
    && (forall a :: a in s.mid ==> Enabled(s, DoExchange(a)))
  }

  ghost predicate Safe(s: Process) {
    && Reachable(s) && NoMissedEvent(s) && NoMissedReap(s) && NoMissedDeadline(s)
    && LiveCounted(s) && OneKeeper(s) && ReaperNotStranded(s) && ExchangesDefined(s)
  }

  lemma HandIsOnItsWay(s: Process, k: Track, t: Tid, w: Wid)
    requires CoreOk(s, k) && (At(s, t, WaitParked(w)) || At(s, t, ReapParked(w))) && w in k.hand
    ensures OnItsWay(s, w)
  {
    var p := s.pc[t];
    assert HasWaker(p) && p.w == w;
    if w in s.fired {
      assert s.slots[w] == Occupied(t);
      assert s.mid[k.firer[w]] == w;
    } else {
      assert w in s.todo[k.catcher[w]];
    }
  }

  lemma InvWaits(s: Process, k: Track)
    requires InvAt(s, k)
    ensures Reachable(s) && NoMissedEvent(s) && NoMissedReap(s) && NoMissedDeadline(s) && ReaperNotStranded(s)
  {
    hide CoreOk, WaitsOk;
    forall t, w | (At(s, t, WaitParked(w)) || At(s, t, ReapParked(w))) && w in k.hand
      ensures OnItsWay(s, w)
    {
      HandIsOnItsWay(s, k, t, w);
    }
    forall t, w | At(s, t, WaitParked(w)) || At(s, t, ReapParked(w))
      ensures WaitFits(s, k.hand, t, s.pc[t])
    {
      FitsAt(s, k.hand, t);
    }
  }

  lemma ParkDefined(pc: Pcs, slots: map<Wid, Slot>, owner: map<Wid, Tid>, t: Tid)
    requires SlotsOk(pc, slots, owner) && t in pc && BeforePark(pc[t])
    ensures pc[t].w in slots && (slots[pc[t].w] == Reserved || slots[pc[t].w] == Unparked)
  {
  }

  lemma ExchangeDefined(slots: map<Wid, Slot>, fired: set<Wid>, mid: map<Actor, Wid>, firer: map<Wid, Actor>, a: Actor)
    requires FiringOk(slots, fired, mid, firer) && a in mid
    ensures mid[a] in slots && (slots[mid[a]] == Reserved || slots[mid[a]].Occupied?)
  {
  }

  lemma InvExchanges(s: Process, k: Track)
    requires CoreOk(s, k)
    ensures ExchangesDefined(s)
  {
    hide SlotsOk, FiringOk, KnownOk, CrewsOk, HandOk;
    forall t, w | At(s, t, WaitBlock(w)) || At(s, t, ReapBlock(w))
      ensures Enabled(s, DoPark(t))
    {
      ParkDefined(s.pc, s.slots, k.owner, t);
    }
    forall a | a in s.mid
      ensures Enabled(s, DoExchange(a))
    {
      ExchangeDefined(s.slots, s.fired, s.mid, k.firer, a);
    }
  }

  lemma InvAccount(s: Process, k: Track)
    requires InvAt(s, k)
    ensures LiveCounted(s) && OneKeeper(s)
    ensures forall t :: At(s, t, Sole) || At(s, t, ReapCheck) ==> s.reapActive
  {
    hide CoreOk, ListedOk, EventOk, TargetOk, DeadlineOk;
  }

  lemma RunSafe(run: seq<Process>, i: nat)
    requires IsRun(run) && i < |run|
    ensures Safe(run[i])
  {
    hide CoreOk, WaitsOk;
    RunInv(run, i);
    var k :| InvAt(run[i], k);
    InvWaits(run[i], k);
    InvExchanges(run[i], k);
    InvAccount(run[i], k);
  }

  /** With every generator, sweep and reaper at rest, a task still parked has nothing to wake for,
  and the next generator will find it. */
  lemma RunQuiescent(run: seq<Process>, i: nat, t: Tid, w: Wid)
    requires IsRun(run) && i < |run| && At(run[i], t, WaitParked(w))
    requires run[i].todo == map[] && run[i].published == {} && !ReaperComing(run[i].pc, run[i].reap)
    ensures t !in run[i].ready
    ensures !run[i].reapActive || !Targeted(run[i].reap, t)
    ensures Reg(t, w) in run[i].registered
    ensures t in run[i].deadline && (run[i].deadline[t].Some? ==> Sleeper(run[i].deadline[t].value, w) in run[i].sleepers)
  {
    RunSafe(run, i);
    assert !OnItsWay(run[i], w);
  }

  /** The token of a finished reap is handed out only to the one task that is left. */
  lemma RunSole(run: seq<Process>, i: nat, t: Tid)
    requires IsRun(run) && i < |run| - 1
    requires At(run[i], t, ReapCheck) && run[i + 1] == CheckLive(run[i], t) && At(run[i + 1], t, Sole)
    ensures run[i + 1].pc.Keys == {t}
    ensures run[i + 1].reapActive && run[i + 1].reap.Some? && run[i + 1].reap.value.keeper == t
  {
    RunInv(run, i);
    hide CoreOk, WaitsOk;
    var s := run[i];
    var k :| InvAt(s, k);
    InvAccount(s, k);
    assert s.live == |s.pc.Keys|;
    Singleton(s.pc.Keys, t);
  }

  lemma Singleton(ts: set<Tid>, t: Tid)
    requires t in ts && |ts| == 1
    ensures ts == {t}
  {
    assert |ts - {t}| == 0;
  }

  // ------------------------------------------------------------- the slots of the lot

  lemma WaitSlots(s: Process, e: Step, w: Wid)
    requires Enabled(s, e) && OfWait(e) && !e.DoPark? && w in s.slots
    ensures w in Apply(s, e).slots && Apply(s, e).slots[w] == s.slots[w]
  {
    match e {
      case DoCallWait(_, _) | DoLoopFlag(_) | DoLoopLock(_) | DoLoopCheck(_) | DoReserve(_, _) | DoSleep(_) | DoRegister(_)
         | DoRecheck(_) | DoRecheckFlag(_) | DoRecheckLock(_) | DoEndFire(_) | DoClear(_) =>
    }
  }

  lemma ReapSlots(s: Process, e: Step, w: Wid)
    requires Enabled(s, e) && OfReap(e) && w in s.slots
    ensures w in Apply(s, e).slots && Apply(s, e).slots[w] == s.slots[w]
  {
    match e {
      case DoCallReap(_) | DoClaim(_) | DoResumeStopped(_) | DoTakeOwn(_) | DoCheckLive(_) | DoReapReserve(_, _) | DoArm(_)
         | DoFinishFlag(_) | DoFinishReap(_) =>
    }
  }

  lemma OtherSlots(s: Process, e: Step, w: Wid)
    requires Enabled(s, e) && !OfWait(e) && !OfReap(e) && !e.DoExchange? && w in s.slots
    ensures w in Apply(s, e).slots && Apply(s, e).slots[w] == s.slots[w]
  {
    match e {
      case DoCreate(_) | DoExit(_) | DoRetire(_, _) | DoPublish(_, _) | DoTake(_) | DoConsume(_) | DoExpire(_, _) | DoTick(_)
         | DoFire(_, _) | DoEndBatch(_) =>
    }
  }

  lemma StepSlots(s: Process, e: Step, w: Wid)
    requires Enabled(s, e) && w in s.slots
    ensures w in Apply(s, e).slots && Moves(s.slots[w], Apply(s, e).slots[w])
  {
    if e.DoPark? || e.DoExchange? {
      return;
    }
    hide Enabled, Apply, OfWait, OfReap;
    if OfWait(e) {
      WaitSlots(s, e, w);
    } else if OfReap(e) {
      ReapSlots(s, e, w);
    } else {
      OtherSlots(s, e, w);
    }
  }

  /** Every slot goes through parks and unparks only, in every run. */
  lemma RunSlots(run: seq<Process>, i: nat, w: Wid)
    requires IsRun(run) && i + 1 < |run| && w in run[i].slots
    ensures w in run[i + 1].slots && Moves(run[i].slots[w], run[i + 1].slots[w])
  {
    hide Enabled, Apply;
    assert Next(run[i], run[i + 1]);
    var e :| Enabled(run[i], e) && Apply(run[i], e) == run[i + 1];
    StepSlots(run[i], e, w);
  }
}
