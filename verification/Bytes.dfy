/** Little-endian numbers and byte-addressed memory. */
module Bytes {

  type byte = b: nat | b < 256

  function Pow256(n: nat): (r: nat)
    ensures r >= 1
  {
    if n == 0 then 1 else 256 * Pow256(n - 1)
  }

  const U64 := 0x1_0000_0000_0000_0000
  const U32 := 0x1_0000_0000

  lemma Pow256Values()
    ensures Pow256(1) == 256 && Pow256(2) == 0x1_0000 && Pow256(4) == U32 && Pow256(8) == U64
  {
    assert Pow256(3) == 0x100_0000;
    assert Pow256(5) == 256 * U32;
    assert Pow256(6) == 0x1_0000 * U32;
    assert Pow256(7) == 0x100_0000 * U32;
  }

  /** The low `n` bytes of `v`. */
  function Le(v: nat, n: nat): (s: seq<byte>)
    ensures |s| == n
    decreases n, v
  {
    if n == 0 then [] else [v % 256] + Le(v / 256, n - 1)
  }

  function FromLe(s: seq<byte>): nat {
    if s == [] then 0 else s[0] + 256 * FromLe(s[1..])
  }

  lemma {:induction false} FromLeLe(v: nat, n: nat)
    requires v < Pow256(n)
    ensures FromLe(Le(v, n)) == v
  {
    if n > 0 {
      FromLeLe(v / 256, n - 1);
      assert Le(v, n)[1..] == Le(v / 256, n - 1);
    }
  }

  lemma {:induction false} LeFromLe(s: seq<byte>)
    ensures FromLe(s) < Pow256(|s|) && Le(FromLe(s), |s|) == s
  {
    if s != [] {
      LeFromLe(s[1..]);
      assert s == [s[0]] + s[1..];
    }
  }

  /** Consecutive 64-bit words. */
  function Words(ws: seq<nat>): (s: seq<byte>)
    ensures |s| == 8 * |ws|
  {
    if ws == [] then [] else Le(ws[0], 8) + Words(ws[1..])
  }

  lemma {:induction false} WordsAt(ws: seq<nat>, i: nat)
    requires i < |ws|
    ensures Words(ws)[8 * i..8 * i + 8] == Le(ws[i], 8)
  {
    if i > 0 {
      WordsAt(ws[1..], i - 1);
      assert Words(ws)[8 * i..8 * i + 8] == Words(ws[1..])[8 * (i - 1)..8 * (i - 1) + 8];
    }
  }

  // ------------------------------------------------------------- memory

  type Memory = nat -> byte

  function Store(mem: Memory, at: nat, bs: seq<byte>): Memory {
    (a: nat) => if at <= a < at + |bs| then bs[a - at] else mem(a)
  }

  function Load(mem: Memory, at: nat, n: nat): (s: seq<byte>)
    ensures |s| == n
  {
    seq(n, i requires 0 <= i < n => mem(at + i))
  }

  ghost predicate SameFrom(mem: Memory, mem': Memory, at: nat) {
    forall a: nat :: at <= a ==> mem'(a) == mem(a)
  }

  lemma LoadStored(mem: Memory, at: nat, bs: seq<byte>)
    ensures Load(Store(mem, at, bs), at, |bs|) == bs
  {
  }

  lemma LoadApart(mem: Memory, at: nat, bs: seq<byte>, from: nat, n: nat)
    requires at + |bs| <= from || from + n <= at
    ensures Load(Store(mem, at, bs), from, n) == Load(mem, from, n)
  {
  }

  // ------------------------------------------------------------- buffers

  function Splice(d: seq<byte>, at: nat, bs: seq<byte>): (r: seq<byte>)
    requires at + |bs| <= |d|
    ensures |r| == |d|
  {
    d[..at] + bs + d[at + |bs|..]
  }

  lemma SpliceParts(d: seq<byte>, at: nat, bs: seq<byte>)
    requires at + |bs| <= |d|
    ensures var r := Splice(d, at, bs);
      r[..at] == d[..at] && r[at..at + |bs|] == bs && r[at + |bs|..] == d[at + |bs|..]
  {
  }

  /** Overwrites part of a buffer. */
  method CopyInto(a: array<byte>, at: nat, bs: seq<byte>)
    requires at + |bs| <= a.Length
    modifies a
    ensures a[..] == Splice(old(a[..]), at, bs)
  {
    for i := 0 to |bs|
      invariant a[..at] == old(a[..at]) && a[at..at + i] == bs[..i] && a[at + i..] == old(a[at + i..])
    {
      a[at + i] := bs[i];
    }
    assert a[..] == a[..at] + a[at..at + |bs|] + a[at + |bs|..];
  }
}
