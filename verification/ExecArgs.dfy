/** Copying the argument and environment strings of an exec in from user memory, within a budget
that the process-entry stack is sure to hold. */
module ExecArgs {
  import opened Basics
  import opened Bytes
  import opened ExecStack

  const ARG_MAX := 32 * 4096
  const STACK_BYTES_PER_ARG := 9
  const USER_STACK := 256 * 4096

  datatype Errno = EFAULT | E2BIG | EINVAL

  /** A string slot in user memory; `readable` says whether its bytes can be made resident. */
  datatype Slot = Slot(data: Str, readable: bool)

  /** A pointer to an array of slots. */
  datatype Group = Group(ptr: nat, slots: seq<Slot>, readable: bool)

  datatype Args = Args(bytes: seq<byte>, lens: seq<nat>, argc: nat)

  function Data(slots: seq<Slot>): (r: seq<Str>)
    ensures |r| == |slots| && forall i :: 0 <= i < |r| ==> r[i] == slots[i].data
  {
    seq(|slots|, i requires 0 <= i < |slots| => slots[i].data)
  }

  /** The stack bytes charged for `strs`: each string, its terminator and its pointer. */
  function Charge(strs: seq<Str>): nat {
    if strs == [] then 0 else Charge(strs[..|strs| - 1]) + |strs[|strs| - 1]| + STACK_BYTES_PER_ARG
  }

  predicate SlotOk(s: Slot) {
    s.data == [] || (s.readable && 0 !in s.data)
  }

  predicate GroupOk(g: Group) {
    g.slots == [] || (g.ptr != 0 && g.readable && forall i :: 0 <= i < |g.slots| ==> SlotOk(g.slots[i]))
  }

  // ------------------------------------------------------------- the packed form

  function Flat(strs: seq<Str>): seq<byte> {
    if strs == [] then [] else Flat(strs[..|strs| - 1]) + strs[|strs| - 1]
  }

  function Lens(strs: seq<Str>): (r: seq<nat>)
    ensures |r| == |strs| && forall i :: 0 <= i < |r| ==> r[i] == |strs[i]|
  {
    seq(|strs|, i requires 0 <= i < |strs| => |strs[i]|)
  }

  ghost predicate Packs(a: Args, strs: seq<Str>, argc: nat) {
    a.bytes == Flat(strs) && a.lens == Lens(strs) && a.argc == argc <= |strs|
  }

  lemma Snoc(strs: seq<Str>, s: Str)
    ensures Flat(strs + [s]) == Flat(strs) + s && Lens(strs + [s]) == Lens(strs) + [|s|]
    ensures Charge(strs + [s]) == Charge(strs) + |s| + STACK_BYTES_PER_ARG
  {
    assert (strs + [s])[..|strs|] == strs;
  }

  lemma ChargeNone()
    ensures Charge([]) == 0
  {
  }

  lemma {:induction false} ChargePrefix(strs: seq<Str>, i: nat)
    requires i <= |strs|
    ensures Charge(strs[..i]) + STACK_BYTES_PER_ARG * (|strs| - i) <= Charge(strs)
    decreases |strs| - i
  {
    if i == |strs| {
      assert strs[..i] == strs;
    } else {
      ChargePrefix(strs, i + 1);
      assert strs[..i + 1] == strs[..i] + [strs[i]];
      Snoc(strs[..i], strs[i]);
    }
  }

  lemma {:induction false} ChargeConcat(a: seq<Str>, b: seq<Str>)
    ensures Charge(a + b) == Charge(a) + Charge(b)
    decreases b
  {
    if b == [] {
      assert a + b == a;
    } else {
      ChargeConcat(a, b[..|b| - 1]);
      assert (a + b)[..|a + b| - 1] == a + b[..|b| - 1];
    }
  }

  // ------------------------------------------------------------- copying in

  /** Everything copied so far: the strings, their packed form and the budget used. */
  ghost predicate Copied(bytes: seq<byte>, lens: seq<nat>, budget: nat, strs: seq<Str>) {
    bytes == Flat(strs) && lens == Lens(strs) && budget == 3 * WORD + Charge(strs)
  }

  method CopyGroup(g: Group, bytes: seq<byte>, lens: seq<nat>, budget: nat, ghost before: seq<Str>)
    returns (r: Result<(seq<byte>, seq<nat>, nat), Errno>)
    requires Copied(bytes, lens, budget, before) && budget <= ARG_MAX
    ensures r.Ok? <==> GroupOk(g) && budget + Charge(Data(g.slots)) <= ARG_MAX
    ensures r.Ok? ==> Copied(r.value.0, r.value.1, r.value.2, before + Data(g.slots)) && r.value.2 <= ARG_MAX
    ensures r == Err(E2BIG) ==> budget + Charge(Data(g.slots)) > ARG_MAX
    ensures r == Err(EINVAL) ==> exists i :: 0 <= i < |g.slots| && 0 in g.slots[i].data
  {
    hide Flat, Lens, Charge, Copied;
    ghost var strs := Data(g.slots);
    if |g.slots| == 0 {
      assert before + strs == before && strs == [];
      ChargeNone();
      return Ok((bytes, lens, budget));
    }
    if g.ptr == 0 {
      return Err(EFAULT);
    }
    ChargePrefix(strs, 0);
    if budget + |g.slots| * STACK_BYTES_PER_ARG > ARG_MAX {
      return Err(E2BIG);
    }
    if !g.readable {
      return Err(EFAULT);
    }
    r := CopySlots(g.slots, bytes, lens, budget, before);
  }

  lemma CopyNext(bytes: seq<byte>, lens: seq<nat>, budget: nat, before: seq<Str>, strs: seq<Str>, i: nat)
    requires i < |strs| && Copied(bytes, lens, budget, before + strs[..i])
    ensures Copied(bytes + strs[i], lens + [|strs[i]|], budget + |strs[i]| + STACK_BYTES_PER_ARG, before + strs[..i + 1])
    ensures Charge(strs[..i + 1]) == Charge(strs[..i]) + |strs[i]| + STACK_BYTES_PER_ARG
    ensures Charge(strs[..i + 1]) <= Charge(strs)
  {
    hide Flat, Lens, Charge;
    assert strs[..i + 1] == strs[..i] + [strs[i]];
    assert before + strs[..i + 1] == before + strs[..i] + [strs[i]];
    Snoc(before + strs[..i], strs[i]);
    Snoc(strs[..i], strs[i]);
    ChargePrefix(strs, i + 1);
  }

  method CopySlots(slots: seq<Slot>, bytes: seq<byte>, lens: seq<nat>, budget: nat, ghost before: seq<Str>)
    returns (r: Result<(seq<byte>, seq<nat>, nat), Errno>)
    requires Copied(bytes, lens, budget, before) && budget <= ARG_MAX
    ensures r.Ok? <==> (forall i :: 0 <= i < |slots| ==> SlotOk(slots[i])) && budget + Charge(Data(slots)) <= ARG_MAX
    ensures r.Ok? ==> Copied(r.value.0, r.value.1, r.value.2, before + Data(slots)) && r.value.2 <= ARG_MAX
    ensures r == Err(E2BIG) ==> budget + Charge(Data(slots)) > ARG_MAX
    ensures r == Err(EINVAL) ==> exists i :: 0 <= i < |slots| && 0 in slots[i].data
  {
    hide Flat, Lens, Charge;
    ghost var strs := Data(slots);
    var bytes': seq<byte>, lens': seq<nat>, budget': nat := bytes, lens, budget;
    assert before + strs[..0] == before && strs[..0] == [];
    ChargeNone();
    for i := 0 to |slots|
      invariant Copied(bytes', lens', budget', before + strs[..i]) && budget' <= ARG_MAX
      invariant budget' == budget + Charge(strs[..i])
      invariant forall j :: 0 <= j < i ==> SlotOk(slots[j])
    {
      var slot := slots[i];
      CopyNext(bytes', lens', budget', before, strs, i);
      budget' := budget' + |slot.data| + STACK_BYTES_PER_ARG;
      if budget' > ARG_MAX {
        return Err(E2BIG);
      }
      if slot.data != [] {
        if !slot.readable {
          return Err(EFAULT);
        }
        if 0 in slot.data {
          return Err(EINVAL);
        }
        bytes' := bytes' + slot.data;
      } else {
        assert bytes' + slot.data == bytes';
      }
      lens' := lens' + [|slot.data|];
    }
    assert strs[..|slots|] == strs;
    return Ok((bytes', lens', budget'));
  }

  lemma CopiedNothing()
    ensures Copied([], [], 3 * WORD, [])
  {
  }

  lemma NulWithin(a: seq<Str>, b: seq<Str>, strs: seq<Str>, i: nat)
    requires i < |strs| && 0 in strs[i] && (strs == a || strs == b)
    ensures exists j :: 0 <= j < |a| + |b| && 0 in (a + b)[j]
  {
    var j := if strs == a then i else |a| + i;
    assert (a + b)[j] == strs[i];
  }

  lemma NulSlot(slots: seq<Slot>) returns (i: nat)
    requires exists k :: 0 <= k < |slots| && 0 in slots[k].data
    ensures i < |slots| && 0 in Data(slots)[i]
  {
    i :| i < |slots| && 0 in slots[i].data;
  }

  /** Accepts exactly the arguments that can be read, hold no NUL and stay within the budget. */
  method CopyIn(argv: Group, envp: Group) returns (r: Result<Args, Errno>)
    ensures r.Ok? <==> GroupOk(argv) && GroupOk(envp) && 3 * WORD + Charge(Data(argv.slots) + Data(envp.slots)) <= ARG_MAX
    ensures r.Ok? ==> Packs(r.value, Data(argv.slots) + Data(envp.slots), |argv.slots|)
    ensures r == Err(E2BIG) ==> 3 * WORD + Charge(Data(argv.slots) + Data(envp.slots)) > ARG_MAX
    ensures r == Err(EINVAL) ==>
      exists i :: 0 <= i < |argv.slots| + |envp.slots| && 0 in (Data(argv.slots) + Data(envp.slots))[i]
  {
    hide Flat, Lens, Charge, Data, GroupOk;
    ghost var a, e := Data(argv.slots), Data(envp.slots);
    ChargeConcat(a, e);
    CopiedNothing();
    var first := CopyGroup(argv, [], [], 3 * WORD, []);
    assert [] + a == a;
    if first.Err? {
      if first.error == EINVAL {
        ghost var i := NulSlot(argv.slots);
        NulWithin(a, e, a, i);
      }
      return Err(first.error);
    }
    var second := CopyGroup(envp, first.value.0, first.value.1, first.value.2, a);
    if second.Err? {
      if second.error == EINVAL {
        ghost var i := NulSlot(envp.slots);
        NulWithin(a, e, e, i);
      }
      return Err(second.error);
    }
    return Ok(Args(second.value.0, second.value.1, |argv.slots|));
  }

  // ------------------------------------------------------------- taking the strings out again

  function Sum(lens: seq<nat>): nat {
    if lens == [] then 0 else Sum(lens[..|lens| - 1]) + lens[|lens| - 1]
  }

  /** String `i` lies where the lengths before it say. */
  lemma {:induction false} FlatAt(strs: seq<Str>, i: nat)
    requires i < |strs|
    ensures Sum(Lens(strs)[..i]) + |strs[i]| <= |Flat(strs)|
    ensures Flat(strs)[Sum(Lens(strs)[..i])..Sum(Lens(strs)[..i]) + |strs[i]|] == strs[i]
    decreases strs
  {
    var n := |strs| - 1;
    var init, flat := strs[..n], Flat(strs[..n]);
    SumLens(init);
    assert Flat(strs) == flat + strs[n];
    assert Lens(strs)[..n] == Lens(init);
    if i < n {
      FlatAt(init, i);
      assert Lens(strs)[..i] == Lens(init)[..i];
      SliceOfFirst(flat, strs[n], Sum(Lens(init)[..i]), Sum(Lens(init)[..i]) + |strs[i]|);
    } else {
      assert (flat + strs[n])[|flat|..|flat| + |strs[n]|] == strs[n];
    }
  }

  lemma SliceOfFirst(a: seq<byte>, b: seq<byte>, lo: nat, hi: nat)
    requires lo <= hi <= |a|
    ensures (a + b)[lo..hi] == a[lo..hi]
  {
  }

  lemma {:induction false} SumLens(strs: seq<Str>)
    ensures Sum(Lens(strs)) == |Flat(strs)|
    decreases strs
  {
    if strs != [] {
      SumLens(strs[..|strs| - 1]);
      assert Lens(strs)[..|strs| - 1] == Lens(strs[..|strs| - 1]);
    }
  }

  lemma SumNext(lens: seq<nat>, k: nat)
    requires k < |lens|
    ensures Sum(lens[..k + 1]) == Sum(lens[..k]) + lens[k]
  {
    assert lens[..k + 1][..k] == lens[..k];
  }

  method Slices(a: Args, skip: nat, take: nat, ghost strs: seq<Str>) returns (out: seq<Str>)
    requires a.bytes == Flat(strs) && a.lens == Lens(strs) && skip + take <= |strs|
    ensures out == strs[skip..skip + take]
  {
    hide Flat, Lens, Sum;
    var at := Sum(a.lens[..skip]);
    out := [];
    for i := 0 to take
      invariant at == Sum(a.lens[..skip + i]) && out == strs[skip..skip + i]
    {
      FlatAt(strs, skip + i);
      out := out + [a.bytes[at..at + a.lens[skip + i]]];
      SumNext(a.lens, skip + i);
      at := at + a.lens[skip + i];
    }
  }

  /** The copied arguments come out as they went in. */
  method ArgvEnvp(a: Args, ghost argv: seq<Str>, ghost envp: seq<Str>) returns (args: seq<Str>, env: seq<Str>)
    requires Packs(a, argv + envp, |argv|)
    ensures args == argv && env == envp
  {
    ghost var strs := argv + envp;
    args := Slices(a, 0, a.argc, strs);
    env := Slices(a, a.argc, |a.lens| - a.argc, strs);
    SplitBack(argv, envp);
  }

  lemma SplitBack(a: seq<Str>, b: seq<Str>)
    ensures (a + b)[0..|a|] == a && (a + b)[|a|..|a| + |b|] == b
  {
  }

  // ------------------------------------------------------------- the budget is enough

  lemma {:induction false} ChargeIsNeed(strs: seq<Str>, n: nat)
    requires n <= |strs|
    ensures Charge(strs[..n]) == StrAt(strs, n) + WORD * n
  {
    if n > 0 {
      ChargeIsNeed(strs, n - 1);
      assert strs[..n] == strs[..n - 1] + [strs[n - 1]];
      Snoc(strs[..n - 1], strs[n - 1]);
    }
  }

  /** Whatever is within the budget fits the user stack, wherever that ends. */
  lemma BudgetFits(strs: seq<Str>, top: nat)
    requires 3 * WORD + Charge(strs) <= ARG_MAX && USER_STACK <= top
    ensures Fits(top, USER_STACK, strs)
  {
    ChargeIsNeed(strs, |strs|);
    assert strs[..|strs|] == strs;
  }
}
