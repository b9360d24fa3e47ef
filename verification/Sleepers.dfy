/** The list of armed deadlines and the timer sweep that edits it in place. */
module Sleepers {

  datatype Sleeper = Sleeper(deadline: nat, waker: nat)

  /** Moves the last element into position `i`, as `Vec::swap_remove` does. */
  function SwapRemove(q: seq<Sleeper>, i: nat): (r: seq<Sleeper>)
    requires i < |q|
    ensures |r| == |q| - 1
  {
    if i == |q| - 1 then q[..i] else q[..|q| - 1][i := q[|q| - 1]]
  }

  lemma SwapRemoveContents(q: seq<Sleeper>, i: nat)
    requires i < |q|
    ensures multiset(SwapRemove(q, i)) + multiset{q[i]} == multiset(q)
    ensures forall j :: 0 <= j < i ==> SwapRemove(q, i)[j] == q[j]
  {
    var last := |q| - 1;
    assert q == q[..last] + [q[last]];
    if i < last {
      assert q[..last] == q[..i] + [q[i]] + q[i + 1..last];
      assert SwapRemove(q, i) == q[..i] + [q[last]] + q[i + 1..last];
    }
  }

  class SleepList {
    var list: seq<Sleeper>

    constructor ()
      ensures list == []
    {
      list := [];
    }

    method SleepUntil(deadline: nat, waker: nat)
      modifies this
      ensures list == old(list) + [Sleeper(deadline, waker)]
    {
      list := list + [Sleeper(deadline, waker)];
    }

    /** One sweep.  `acquired` is the outcome of the try-lock and `clock` the time, if there is one.
    Every expired sleeper is woken exactly as often as it was armed, and nothing else is touched. */
    method WakeExpired(acquired: bool, hasClock: bool, now: nat) returns (woken: seq<Sleeper>)
      modifies this
      ensures multiset(list) + multiset(woken) == multiset(old(list))
      ensures !acquired || !hasClock ==> woken == [] && list == old(list)
      ensures acquired && hasClock ==> forall x :: x in list ==> now < x.deadline
      ensures forall x :: x in woken ==> x.deadline <= now
    {
      woken := [];
      if !acquired || !hasClock {
        return;
      }
      var i := 0;
      while i < |list|
        invariant i <= |list|
        invariant multiset(list) + multiset(woken) == multiset(old(list))
        invariant forall j :: 0 <= j < i ==> now < list[j].deadline
        invariant forall x :: x in woken ==> x.deadline <= now
        decreases |list| - i
      {
        if list[i].deadline <= now {
          SwapRemoveContents(list, i);
          woken := woken + [list[i]];
          list := SwapRemove(list, i);
        } else {
          i := i + 1;
        }
      }
    }
  }

  /** The two clauses of a sweep leave no choice: each sleeper is woken or kept with its full count. */
  lemma SweepExact(before: seq<Sleeper>, kept: seq<Sleeper>, woken: seq<Sleeper>, now: nat, x: Sleeper)
    requires multiset(kept) + multiset(woken) == multiset(before)
    requires forall y :: y in kept ==> now < y.deadline
    requires forall y :: y in woken ==> y.deadline <= now
    ensures multiset(woken)[x] == if x.deadline <= now then multiset(before)[x] else 0
    ensures multiset(kept)[x] == if x.deadline <= now then 0 else multiset(before)[x]
  {
    assert (multiset(kept) + multiset(woken))[x] == multiset(before)[x];
    assert x in multiset(kept) <==> x in kept;
    assert x in multiset(woken) <==> x in woken;
  }
}
