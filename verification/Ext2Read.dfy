/** Reading through the block pointers: the cached resolution, block writes and file reads. */
module Ext2Read {
  import opened Basics
  import opened Bytes
  import opened Arith
  import opened Ext2Tree
  import opened Ext2Scan
  import BlockDevice

  datatype Cached = Cached(addr: Addr, table: Table)

  function Keys(entries: seq<Cached>): (r: seq<Addr>)
    ensures |r| == |entries| && forall i :: 0 <= i < |r| ==> r[i] == entries[i].addr
  {
    seq(|entries|, i requires 0 <= i < |entries| => entries[i].addr)
  }

  /** Every cached table is the decoded block on the disk. */
  ghost predicate Coherent(v: Volume, entries: seq<Cached>) {
    forall i :: 0 <= i < |entries| ==> TableAt(v, entries[i].addr) == Ok(entries[i].table)
  }

  function Rotated(entries: seq<Cached>, pos: nat): seq<Cached>
    requires pos < |entries|
  {
    [entries[pos]] + entries[..pos] + entries[pos + 1..]
  }

  lemma RotatedKeys(entries: seq<Cached>, pos: nat)
    requires pos < |entries| && entries[pos].addr !in Keys(entries)[..pos]
    ensures Keys(Rotated(entries, pos)) == Touch(Keys(entries), entries[pos].addr)
  {
    var keys, a := Keys(entries), entries[pos].addr;
    assert keys[pos] == a;
    assert First(keys, a) == pos;
    var x, y := Keys(Rotated(entries, pos)), [a] + keys[..pos] + keys[pos + 1..];
    forall i | 0 <= i < |entries| ensures x[i] == y[i] {
      assert x[i] == Rotated(entries, pos)[i].addr;
    }
  }

  lemma RotatedCoherent(v: Volume, entries: seq<Cached>, pos: nat, index: nat)
    requires v.Valid() && Coherent(v, entries) && pos < |entries|
    ensures Coherent(v, Rotated(entries, pos)) && Rotated(entries, pos)[0] == entries[pos]
    ensures |entries[pos].table| == v.p
    ensures index < v.p ==> Follow(v, Some(entries[pos].addr), index) == Ok(entries[pos].table[index])
  {
    assert TableAt(v, entries[pos].addr) == Ok(entries[pos].table);
    TableSize(v, entries[pos].addr);
    forall i | 0 <= i < |entries| ensures Rotated(entries, pos)[i] in entries {
    }
  }

  class IndirectCache {
    var entries: seq<Cached>

    constructor ()
      ensures entries == []
    {
      entries := [];
    }

    method Lookup(a: Addr, index: nat) returns (r: Option<Option<Addr>>)
      modifies this
      ensures a !in Keys(old(entries)) ==> r == None && entries == old(entries)
      ensures a in Keys(old(entries)) ==>
        && exists pos :: 0 <= pos < |old(entries)| && old(entries)[pos].addr == a && entries == Rotated(old(entries), pos)
      ensures a in Keys(old(entries)) ==> Keys(entries) == Touch(Keys(old(entries)), a)
      ensures a in Keys(old(entries)) ==> r == if index < |entries[0].table| then Some(entries[0].table[index]) else None
    {
      var pos := 0;
      while pos < |entries| && entries[pos].addr != a
        invariant pos <= |entries| && a !in Keys(entries)[..pos]
      {
        pos := pos + 1;
      }
      if pos == |entries| {
        assert Keys(entries)[..pos] == Keys(entries);
        return None;
      }
      assert Keys(entries)[pos] == a;
      RotatedKeys(entries, pos);
      entries := Rotated(entries, pos);
      var table := entries[0].table;
      return if index < |table| then Some(table[index]) else None;
    }

    method Insert(a: Addr, table: Table)
      modifies this
      ensures entries == [Cached(a, table)] + if |old(entries)| == CAPACITY then old(entries)[..CAPACITY - 1] else old(entries)
    {
      if |entries| == CAPACITY {
        entries := entries[..|entries| - 1];
      }
      entries := [Cached(a, table)] + entries;
    }

    method Invalidate(a: Addr)
      modifies this
      ensures entries == Without(old(entries), a)
    {
      var kept: seq<Cached> := [];
      for i := 0 to |entries|
        invariant entries == old(entries) && kept == Without(entries[..i], a)
      {
        assert entries[..i + 1][..i] == entries[..i];
        if entries[i].addr != a {
          kept := kept + [entries[i]];
        }
      }
      assert entries[..|entries|] == entries;
      entries := kept;
    }
  }

  /** The entries of all other blocks, in order. */
  function Without(entries: seq<Cached>, a: Addr): (r: seq<Cached>)
    ensures |r| <= |entries|
    ensures forall e :: e in r <==> e in entries && e.addr != a
  {
    if entries == [] then []
    else
      var n := |entries| - 1;
      assert entries == entries[..n] + [entries[n]];
      Without(entries[..n], a) + if entries[n].addr != a then [entries[n]] else []
  }

  // ------------------------------------------------------------- what a resolution visits, level by level

  function PathOne(ptr: Option<Addr>): seq<Addr> {
    if ptr.None? then [] else [ptr.value]
  }

  function PathTwo(v: Volume, ptr: Option<Addr>, k: nat): seq<Addr>
    requires v.Valid()
  {
    if ptr.None? then [] else [ptr.value] + PathOne(Entry(v, ptr, k / v.p))
  }

  function PathDown(v: Volume, ptr: Option<Addr>, k: nat, span: nat): seq<Addr>
    requires v.Valid() && span > 0
  {
    if ptr.None? then [] else [ptr.value] + PathTwo(v, Entry(v, ptr, k / span), k % span)
  }

  function PathThree(v: Volume, ptr: Option<Addr>, k: nat): seq<Addr>
    requires v.Valid()
  {
    assert v.p * v.p > 0 by { MulLe(1, v.p, v.p); }
    PathDown(v, ptr, k, v.p * v.p)
  }

  /** A resolution went through `path`: it read the blocks the cache did not hold and left the cache after them. */
  ghost predicate Did(path: seq<Addr>, ok: bool, keys: seq<Addr>, keys': seq<Addr>, log: seq<Addr>, log': seq<Addr>) {
    log' == log + Reads(keys, path) && (ok ==> keys' == After(keys, path))
  }

  lemma DidNothing(ok: bool, keys: seq<Addr>, log: seq<Addr>)
    ensures Did([], ok, keys, keys, log, log)
  {
  }

  lemma DidOne(a: Addr, ok: bool, keys: seq<Addr>, keys': seq<Addr>, log: seq<Addr>, log': seq<Addr>)
    requires log' == log + (if a in keys then [] else [a]) && (ok ==> keys' == Touch(keys, a))
    ensures Did([a], ok, keys, keys', log, log')
  {
    assert [a] == [a] + [];
    OneThenRest(keys, a, []);
  }

  lemma DidOneMeans(a: Addr, keys: seq<Addr>, keys': seq<Addr>, log: seq<Addr>, log': seq<Addr>)
    requires Did([a], true, keys, keys', log, log')
    ensures log' == log + (if a in keys then [] else [a]) && keys' == Touch(keys, a)
  {
    assert [a] == [a] + [];
    OneThenRest(keys, a, []);
  }

  lemma Assoc(x: seq<Addr>, y: seq<Addr>, z: seq<Addr>)
    ensures x + y + z == x + (y + z)
  {
  }

  lemma DidThen(a: Addr, rest: seq<Addr>, ok: bool, keys: seq<Addr>, keys1: seq<Addr>, keys2: seq<Addr>,
                log: seq<Addr>, log1: seq<Addr>, log2: seq<Addr>)
    requires Did([a], true, keys, keys1, log, log1) && Did(rest, ok, keys1, keys2, log1, log2)
    ensures Did([a] + rest, ok, keys, keys2, log, log2)
  {
    DidOneMeans(a, keys, keys1, log, log1);
    OneThenRest(keys, a, rest);
    Assoc(log, if a in keys then [] else [a], Reads(keys1, rest));
  }

  lemma OneAddress(v: Volume, inode: Inode, n: Node)
    requires v.Valid()
    ensures Addresses(v, inode, [n]) == PathOne(NodeAddr(v, inode, n))
  {
    assert [n][1..] == [];
  }

  lemma MoreAddresses(v: Volume, inode: Inode, n: Node, rest: seq<Node>)
    requires v.Valid()
    ensures Addresses(v, inode, [n] + rest) ==
      if NodeAddr(v, inode, n).None? then [] else [NodeAddr(v, inode, n).value] + Addresses(v, inode, rest)
  {
    assert ([n] + rest)[0] == n && ([n] + rest)[1..] == rest;
  }

  lemma LimitsOrdered(v: Volume)
    ensures DIRECT <= SingleLimit(v) <= DoubleLimit(v) <= TripleLimit(v)
  {
    MulLe(0, v.p, v.p);
    MulLe(0, v.p * v.p, v.p);
  }

  lemma VisitedDirect(v: Volume, inode: Inode, i: nat)
    requires v.Valid() && |inode.direct| == DIRECT && i < DIRECT
    ensures Visited(v, inode, i) == [] && Resolve(v, inode, i) == Ok(inode.direct[i])
  {
    LimitsOrdered(v);
    hide SingleLimit, DoubleLimit, TripleLimit;
  }

  lemma VisitedPast(v: Volume, inode: Inode, i: nat)
    requires v.Valid() && |inode.direct| == DIRECT && i >= TripleLimit(v)
    ensures Visited(v, inode, i) == [] && Resolve(v, inode, i) == Err(InvalidBlockIndex(i))
  {
    LimitsOrdered(v);
    hide SingleLimit, DoubleLimit, TripleLimit;
  }

  lemma VisitedSingle(v: Volume, inode: Inode, i: nat)
    requires v.Valid() && |inode.direct| == DIRECT && DIRECT <= i < SingleLimit(v)
    ensures i - DIRECT < v.p && Visited(v, inode, i) == PathOne(inode.single)
    ensures Resolve(v, inode, i) == Follow(v, inode.single, i - DIRECT)
  {
    OneAddress(v, inode, Root(1));
  }

  lemma InDouble(v: Volume, i: nat, k: nat)
    requires v.Valid() && SingleLimit(v) <= i < DoubleLimit(v) && k == i - SingleLimit(v)
    ensures i < TripleLimit(v) && k / v.p < v.p && Path(v, i) == [Root(2)] + [Leaf(2, k / v.p)]
  {
    DivBound(k, v.p, v.p);
    MulLe(0, v.p * v.p, v.p);
  }

  lemma TwoAddresses(v: Volume, inode: Inode, q: nat)
    requires v.Valid()
    ensures Addresses(v, inode, [Root(2)] + [Leaf(2, q)]) ==
      if inode.double_.None? then [] else [inode.double_.value] + PathOne(Entry(v, inode.double_, q))
  {
    hide Entry, Addresses;
    MoreAddresses(v, inode, Root(2), [Leaf(2, q)]);
    OneAddress(v, inode, Leaf(2, q));
  }

  lemma ResolveDouble(v: Volume, inode: Inode, i: nat)
    requires v.Valid() && |inode.direct| == DIRECT && SingleLimit(v) <= i < DoubleLimit(v)
    ensures Resolve(v, inode, i) == FollowTwo(v, inode.double_, i - SingleLimit(v))
  {
    hide FollowTwo, Follow, DoubleLimit;
  }

  lemma VisitedDouble(v: Volume, inode: Inode, i: nat)
    requires v.Valid() && |inode.direct| == DIRECT && SingleLimit(v) <= i < DoubleLimit(v)
    ensures (i - SingleLimit(v)) / v.p < v.p
    ensures Visited(v, inode, i) == PathTwo(v, inode.double_, i - SingleLimit(v))
    ensures Resolve(v, inode, i) == FollowTwo(v, inode.double_, i - SingleLimit(v))
  {
    hide Path, Entry, Addresses, DoubleLimit, TripleLimit, Resolve, FollowTwo;
    var k := i - SingleLimit(v);
    InDouble(v, i, k);
    TwoAddresses(v, inode, k / v.p);
    ResolveDouble(v, inode, i);
  }

  lemma VisitedTriple(v: Volume, inode: Inode, i: nat)
    requires v.Valid() && |inode.direct| == DIRECT && DoubleLimit(v) <= i < TripleLimit(v)
    ensures v.p * v.p > 0 && InRange(v, i - DoubleLimit(v), v.p * v.p)
    ensures Visited(v, inode, i) == PathThree(v, inode.triple, i - DoubleLimit(v))
    ensures Resolve(v, inode, i) == FollowThree(v, inode.triple, i - DoubleLimit(v))
  {
    DigitBounds(v, i);
    var k := Local(v, i);
    Digits(k, v.p);
    var mid, leaf := Mid(k / v.p / v.p), Leaf(3, k / v.p);
    assert Path(v, i) == [Root(3)] + ([mid] + [leaf]);
    MoreAddresses(v, inode, Root(3), [mid] + [leaf]);
    MoreAddresses(v, inode, mid, [leaf]);
    OneAddress(v, inode, leaf);
  }

  /** The upper two digits of an index into the triple subtree are positions in a block. */
  predicate InRange(v: Volume, k: nat, span: nat)
    requires v.Valid() && span > 0
  {
    k / span < v.p && k % span / v.p < v.p
  }

  lemma InsertedKeys(entries: seq<Cached>, a: Addr, table: Table)
    requires |entries| <= CAPACITY && a !in Keys(entries)
    ensures Keys([Cached(a, table)] + if |entries| == CAPACITY then entries[..CAPACITY - 1] else entries) == Touch(Keys(entries), a)
  {
  }

  // ------------------------------------------------------------- the file system object

  class Ext2Fs {
    const blockSize: nat
    const device: BlockDevice.Device
    const cache: IndirectCache
    var fetched: seq<Addr>   // history: indirect blocks read from the device

    ghost predicate Valid()
      reads this, device, cache
    {
      && blockSize >= 4 && device.Valid() && |cache.entries| <= CAPACITY
      && Coherent(View(), cache.entries)
    }

    function View(): Volume
      reads this, device
    {
      Volume(blockSize, blockSize / 4, device.data)
    }

    constructor (size: nat, dev: BlockDevice.Device)
      requires size >= 4 && dev.Valid()
      ensures Valid() && blockSize == size && device == dev && cache.entries == [] && fetched == [] && fresh(cache)
    {
      blockSize, device := size, dev;
      cache := new IndirectCache();
      fetched := [];
    }

    /** The 32-bit product of a build with overflow checks; WrapExact is about one without. */
    method ReadBlock(a: Addr) returns (r: Result<seq<byte>, Error>)
      requires Valid()
      ensures r == Block(View(), a)
    {
      if a * blockSize >= U32 {
        return Err(Overflow);
      }
      var data := device.ReadAt(a * blockSize, blockSize);
      if data.Err? {
        return Err(DeviceRead);
      }
      return Ok(data.value);
    }

    /** Follows one pointer through the cache. */
    method ResolveIndirectPtr(ptr: Option<Addr>, index: nat) returns (r: Result<Option<Addr>, Error>)
      requires Valid()
      modifies this, cache
      ensures Valid() && r == Follow(View(), ptr, index)
      ensures index < View().p ==>
        Did(PathOne(ptr), r.Ok?, Keys(old(cache.entries)), Keys(cache.entries), old(fetched), fetched)
    {
      if ptr.None? {
        DidNothing(true, Keys(cache.entries), fetched);
        return Ok(None);
      }
      var hit := LookupTable(ptr.value, index);
      if hit.Some? {
        r := Ok(hit.value);
      } else {
        r := FetchTable(ptr.value, index);
      }
      if index < View().p {
        DidOne(ptr.value, r.Ok?, Keys(old(cache.entries)), Keys(cache.entries), old(fetched), fetched);
      }
    }

    /** The hit: a coherent cache answers as the disk would. */
    method LookupTable(a: Addr, index: nat) returns (hit: Option<Option<Addr>>)
      requires Valid()
      modifies cache
      ensures Valid()
      ensures hit.Some? ==> Follow(View(), Some(a), index) == Ok(hit.value) && a in Keys(old(cache.entries))
      ensures hit.Some? ==> Keys(cache.entries) == Touch(Keys(old(cache.entries)), a)
      ensures hit.None? && index < View().p ==> a !in Keys(cache.entries) && cache.entries == old(cache.entries)
    {
      ghost var before := cache.entries;
      hit := cache.Lookup(a, index);
      if a in Keys(before) {
        ghost var pos :| 0 <= pos < |before| && before[pos].addr == a && cache.entries == Rotated(before, pos);
        RotatedCoherent(View(), before, pos, index);
      }
    }

    /** The miss: read the block, decode it and put it in front. */
    method FetchTable(a: Addr, index: nat) returns (r: Result<Option<Addr>, Error>)
      requires Valid() && (index < View().p ==> a !in Keys(cache.entries))
      modifies this, cache
      ensures Valid() && r == Follow(View(), Some(a), index) && fetched == old(fetched) + [a]
      ensures r.Ok? ==> a !in Keys(old(cache.entries)) && Keys(cache.entries) == Touch(Keys(old(cache.entries)), a)
    {
      ghost var before := cache.entries;
      fetched := fetched + [a];
      var data := ReadBlock(a);
      if data.Err? {
        return Err(data.error);
      }
      var table := Pointers(data.value);
      TableSize(View(), a);
      if index >= |table| {
        return Err(InvalidBlockIndex(index));
      }
      cache.Insert(a, table);
      InsertedKeys(before, a, table);
      return Ok(table[index]);
    }

    method ResolveDoubleIndirectPtr(ptr: Option<Addr>, k: nat) returns (r: Result<Option<Addr>, Error>)
      requires Valid()
      modifies this, cache
      ensures Valid() && r == FollowTwo(View(), ptr, k)
      ensures k / View().p < View().p ==>
        Did(PathTwo(View(), ptr, k), r.Ok?, Keys(old(cache.entries)), Keys(cache.entries), old(fetched), fetched)
    {
      ghost var keys, log := Keys(cache.entries), fetched;
      var p := blockSize / 4;
      var first := ResolveIndirectPtr(ptr, k / p);
      if first.Err? {
        assert PathTwo(View(), ptr, k) == PathOne(ptr);
        return first;
      }
      ghost var keys1, log1 := Keys(cache.entries), fetched;
      r := ResolveIndirectPtr(first.value, k % p);
      if ptr.Some? && k / p < p {
        DidThen(ptr.value, PathOne(first.value), r.Ok?, keys, keys1, Keys(cache.entries), log, log1, fetched);
      }
    }

    method ResolveDown(ptr: Option<Addr>, k: nat, span: nat) returns (r: Result<Option<Addr>, Error>)
      requires Valid() && span > 0
      modifies this, cache
      ensures Valid() && r == FollowDown(View(), ptr, k, span)
      ensures InRange(View(), k, span) ==>
        Did(PathDown(View(), ptr, k, span), r.Ok?, Keys(old(cache.entries)), Keys(cache.entries), old(fetched), fetched)
    {
      ghost var keys, log := Keys(cache.entries), fetched;
      var first := ResolveIndirectPtr(ptr, k / span);
      if first.Err? {
        assert PathDown(View(), ptr, k, span) == PathOne(ptr);
        return first;
      }
      ghost var keys1, log1 := Keys(cache.entries), fetched;
      r := ResolveDoubleIndirectPtr(first.value, k % span);
      if ptr.Some? && InRange(View(), k, span) {
        DidThen(ptr.value, PathTwo(View(), first.value, k % span), r.Ok?, keys, keys1, Keys(cache.entries), log, log1, fetched);
      }
    }

    method ResolveTripleIndirectPtr(ptr: Option<Addr>, k: nat) returns (r: Result<Option<Addr>, Error>)
      requires Valid()
      modifies this, cache
      ensures Valid() && r == FollowThree(View(), ptr, k)
      ensures View().p * View().p > 0
      ensures InRange(View(), k, View().p * View().p) ==>
        Did(PathThree(View(), ptr, k), r.Ok?, Keys(old(cache.entries)), Keys(cache.entries), old(fetched), fetched)
    {
      var p := blockSize / 4;
      MulLe(1, p, p);
      r := ResolveDown(ptr, k, p * p);
    }

    /** Cached resolution equals the uncached walk, and reads what the scan model says it reads. */
    method ResolveBlockIndex(inode: Inode, i: nat) returns (r: Result<Option<Addr>, Error>)
      requires Valid() && |inode.direct| == DIRECT
      modifies this, cache
      ensures Valid() && r == Resolve(View(), inode, i)
      ensures Did(Visited(View(), inode, i), r.Ok?, Keys(old(cache.entries)), Keys(cache.entries), old(fetched), fetched)
    {
      hide Resolve, Visited, Did, Follow, FollowTwo, FollowThree, PathTwo, PathThree, Coherent;
      var v := View();
      if i < DIRECT {
        VisitedDirect(v, inode, i);
        DidNothing(true, Keys(cache.entries), fetched);
        return Ok(inode.direct[i]);
      } else if i < SingleLimit(v) {
        VisitedSingle(v, inode, i);
        r := ResolveIndirectPtr(inode.single, i - DIRECT);
      } else if i < DoubleLimit(v) {
        VisitedDouble(v, inode, i);
        r := ResolveDoubleIndirectPtr(inode.double_, i - SingleLimit(v));
      } else if i >= TripleLimit(v) {
        VisitedPast(v, inode, i);
        DidNothing(false, Keys(cache.entries), fetched);
        return Err(InvalidBlockIndex(i));
      } else {
        VisitedTriple(v, inode, i);
        r := ResolveTripleIndirectPtr(inode.triple, i - DoubleLimit(v));
      }
    }

    /** Writes a block after dropping it from the cache, which stays coherent if the write is harmless. */
    method WriteBlock(a: Addr, buf: seq<byte>) returns (r: Result<nat, Error>)
      requires Valid()
      modifies cache, device
      ensures device.Valid()
      ensures a * blockSize >= U32 ==> r == Err(Overflow) && device.data == old(device.data)
      ensures a * blockSize < U32 ==> device.data == BlockDevice.Written(old(device.data), a * blockSize, buf)
      ensures a * blockSize < U32 ==>
        r == if buf == [] || a * blockSize + |buf| <= |device.data| then Ok(|buf|) else Err(DeviceWrite)
      ensures cache.entries == Without(old(cache.entries), a)
      ensures Harmless(old(View()), a, |buf|) ==> Valid()
    {
      hide TableAt, Harmless, Without, BlockDevice.Written;
      ghost var v, before := View(), cache.entries;
      cache.Invalidate(a);
      WithoutCoherent(v, before, a);
      if a * blockSize >= U32 {
        return Err(Overflow);
      }
      var written := device.WriteAt(a * blockSize, buf);
      if Harmless(v, a, |buf|) {
        WriteCoherent(v, before, a, buf);
      }
      return if written.Ok? then Ok(written.value) else Err(DeviceWrite);
    }
  }

  // ------------------------------------------------------------- block writes and the cache

  /** Writing at most one block leaves every other block as it was. */
  lemma OtherBlock(v: Volume, a: Addr, b: Addr, buf: seq<byte>)
    requires a != b && |buf| <= v.blockSize
    ensures TableAt(v.(disk := BlockDevice.Written(v.disk, a * v.blockSize, buf)), b) == TableAt(v, b)
  {
    var at, there := a * v.blockSize, b * v.blockSize;
    var data := BlockDevice.Fitting(|v.disk|, at, buf);
    if a < b {
      MulLe(a + 1, b, v.blockSize);
      MulDist(a, 1, v.blockSize);
    } else {
      MulLe(b + 1, a, v.blockSize);
      MulDist(b, 1, v.blockSize);
    }
    if data != [] && there + v.blockSize <= |v.disk| {
      BlockDevice.SpliceReads(v.disk, at, data, there, v.blockSize);
    }
  }

  /** The write does not reach into the next block, or that block cannot be read as a table. */
  predicate Harmless(v: Volume, a: Addr, n: nat) {
    n <= v.blockSize || (a + 1) * v.blockSize + v.blockSize > |v.disk| || (a + 1) * v.blockSize >= U32
  }

  /** A longer write changes nothing before its block. */
  lemma EarlierBlock(v: Volume, a: Addr, b: Addr, buf: seq<byte>)
    requires b < a
    ensures TableAt(v.(disk := BlockDevice.Written(v.disk, a * v.blockSize, buf)), b) == TableAt(v, b)
  {
    hide Pointers;
    var at, there := a * v.blockSize, b * v.blockSize;
    var data := BlockDevice.Fitting(|v.disk|, at, buf);
    MulLe(b + 1, a, v.blockSize);
    MulNext(b, v.blockSize);
    if data != [] && there + v.blockSize <= |v.disk| {
      BlockDevice.SpliceReads(v.disk, at, data, there, v.blockSize);
    }
  }

  lemma OtherTable(v: Volume, a: Addr, b: Addr, buf: seq<byte>)
    requires a != b && Harmless(v, a, |buf|) && TableAt(v, b).Ok?
    ensures TableAt(v.(disk := BlockDevice.Written(v.disk, a * v.blockSize, buf)), b) == TableAt(v, b)
  {
    hide Pointers, BlockDevice.Written;
    if |buf| <= v.blockSize {
      OtherBlock(v, a, b, buf);
    } else {
      if a < b {
        MulLe(a + 1, b, v.blockSize);
      }
      EarlierBlock(v, a, b, buf);
    }
  }

  lemma WithoutCoherent(v: Volume, entries: seq<Cached>, a: Addr)
    requires Coherent(v, entries)
    ensures Coherent(v, Without(entries, a))
  {
    hide TableAt, Without;
    var kept := Without(entries, a);
    forall i | 0 <= i < |kept| ensures TableAt(v, kept[i].addr) == Ok(kept[i].table) {
      assert kept[i] in entries;
    }
  }

  lemma WriteCoherent(v: Volume, entries: seq<Cached>, a: Addr, buf: seq<byte>)
    requires Coherent(v, entries) && Harmless(v, a, |buf|)
    ensures Coherent(v.(disk := BlockDevice.Written(v.disk, a * v.blockSize, buf)), Without(entries, a))
  {
    hide TableAt, Without, Harmless, BlockDevice.Written;
    WithoutCoherent(v, entries, a);
    var kept := Without(entries, a);
    forall i | 0 <= i < |kept|
      ensures TableAt(v.(disk := BlockDevice.Written(v.disk, a * v.blockSize, buf)), kept[i].addr) == Ok(kept[i].table)
    {
      assert kept[i] in kept;
      OtherTable(v, a, kept[i].addr, buf);
    }
  }

  lemma FirstPointer(x: seq<byte>, y: seq<byte>)
    requires |x| == |y| >= 4 && x[0] != y[0] && x[1..] == y[1..]
    ensures |Pointers(x)| == |Pointers(y)| > 0 && Pointers(x)[0] != Pointers(y)[0]
  {
    var a, b := x[0..4], y[0..4];
    assert a[1..] == x[1..][..3] && b[1..] == y[1..][..3];
    LeFromLe(a);
    LeFromLe(b);
    Pow256Values();
    assert Pointers(x)[0] == ToAddr(FromLe(x[4 * 0..4 * 0 + 4]));
    assert Pointers(y)[0] == ToAddr(FromLe(y[4 * 0..4 * 0 + 4]));
  }

  /** A disk of `n` bytes on which a write at `at` changes exactly the first byte of the next block. */
  function StaleDisk(n: nat, at: nat, size: nat, buf: seq<byte>): (disk: seq<byte>)
    requires |buf| > size > 0 && at + size + size <= n
    ensures |disk| == n
  {
    BlockDevice.Written(seq(n, _ => 0), at, buf)[at + size := if buf[size] == 0 then 1 else 0]
  }

  lemma StaleByte(n: nat, at: nat, size: nat, buf: seq<byte>)
    requires |buf| > size > 0 && at + size + size <= n
    ensures var disk := StaleDisk(n, at, size, buf);
      var after := BlockDevice.Written(disk, at, buf);
      && after[at + size] != disk[at + size]
      && after[at + size..at + size + size][1..] == disk[at + size..at + size + size][1..]
  {
    var zeros: seq<byte> := seq(n, _ => 0);
    var data := BlockDevice.Fitting(n, at, buf);
    assert |data| > size && data[size] == buf[size];
    var disk, once := StaleDisk(n, at, size, buf), Splice(zeros, at, data);
    forall i | 0 <= i < n ensures Splice(disk, at, data)[i] == once[i] {
    }
    assert BlockDevice.Written(disk, at, buf) == once;
  }

  /** Any other write reaches into the next block: on this disk of the same size the first pointer in the
  table of that block is no longer what it was. */
  lemma LongWriteGoesStale(v: Volume, a: Addr, buf: seq<byte>)
    requires v.Valid() && !Harmless(v, a, |buf|)
    ensures a + 1 < U32 && (a + 1) * v.blockSize == a * v.blockSize + v.blockSize
    ensures var disk := StaleDisk(|v.disk|, a * v.blockSize, v.blockSize, buf);
      var before, after := v.(disk := disk), v.(disk := BlockDevice.Written(disk, a * v.blockSize, buf));
      && TableAt(before, a + 1).Ok? && TableAt(after, a + 1).Ok?
      && |TableAt(before, a + 1).value| == |TableAt(after, a + 1).value| > 0
      && TableAt(before, a + 1).value[0] != TableAt(after, a + 1).value[0]
  {
    hide Pointers, BlockDevice.Written, StaleDisk;
    MulNext(a, v.blockSize);
    MulLe(4, v.blockSize, a + 1);
    var at := a * v.blockSize;
    StaleByte(|v.disk|, at, v.blockSize, buf);
    var disk := StaleDisk(|v.disk|, at, v.blockSize, buf);
    var after := BlockDevice.Written(disk, at, buf);
    var next := at + v.blockSize;
    FirstPointer(after[next..next + v.blockSize], disk[next..next + v.blockSize]);
  }

  /** On this disk the write keeps every readable table but the written block's own. */
  ghost predicate KeepsTables(v: Volume, a: Addr, buf: seq<byte>, disk: seq<byte>) {
    forall b: Addr :: b != a && TableAt(v.(disk := disk), b).Ok? ==>
      TableAt(v.(disk := BlockDevice.Written(disk, a * v.blockSize, buf)), b) == TableAt(v.(disk := disk), b)
  }

  lemma HarmlessKeeps(v: Volume, a: Addr, buf: seq<byte>, disk: seq<byte>)
    requires Harmless(v, a, |buf|) && |disk| == |v.disk|
    ensures KeepsTables(v, a, buf, disk)
  {
    hide TableAt;
    forall b: Addr | b != a && TableAt(v.(disk := disk), b).Ok?
      ensures TableAt(v.(disk := BlockDevice.Written(disk, a * v.blockSize, buf)), b) == TableAt(v.(disk := disk), b)
    {
      OtherTable(v.(disk := disk), a, b, buf);
    }
  }

  lemma LongWriteLoses(v: Volume, a: Addr, buf: seq<byte>)
    requires v.Valid() && !Harmless(v, a, |buf|)
    ensures a * v.blockSize + v.blockSize + v.blockSize <= |v.disk|
    ensures !KeepsTables(v, a, buf, StaleDisk(|v.disk|, a * v.blockSize, v.blockSize, buf))
  {
    hide TableAt, StaleDisk;
    LongWriteGoesStale(v, a, buf);
  }

  /** A block write keeps the other tables of every disk of that size exactly if it is harmless. */
  lemma WriteExact(v: Volume, a: Addr, buf: seq<byte>)
    requires v.Valid()
    ensures Harmless(v, a, |buf|) <==> forall disk: seq<byte> :: |disk| == |v.disk| ==> KeepsTables(v, a, buf, disk)
  {
    hide KeepsTables, StaleDisk, Harmless;
    if Harmless(v, a, |buf|) {
      forall disk: seq<byte> | |disk| == |v.disk| ensures KeepsTables(v, a, buf, disk) {
        HarmlessKeeps(v, a, buf, disk);
      }
    } else {
      LongWriteLoses(v, a, buf);
    }
  }

  function Blank(size: nat, n: nat): (v: Volume)
    ensures v.blockSize == size && v.p == size / 4 && |v.disk| == n
  {
    Volume(size, size / 4, seq(n, _ => 0))
  }

  lemma CachedTable(v: Volume, entries: seq<Cached>, b: Addr)
    requires Coherent(v, entries) && Keys(entries) == [b]
    ensures TableAt(v, b).Ok? && entries == [Cached(b, TableAt(v, b).value)]
  {
    hide TableAt;
    assert Keys(entries)[0] == entries[0].addr;
  }

  /** Reads a table into an empty cache. */
  method LoadTable(fs: Ext2Fs, b: Addr)
    requires fs.Valid() && fs.cache.entries == [] && TableAt(fs.View(), b).Ok?
    modifies fs, fs.cache
    ensures fs.Valid() && fs.device.data == old(fs.device.data)
    ensures fs.cache.entries == [Cached(b, TableAt(fs.View(), b).value)]
  {
    TableSize(fs.View(), b);
    var first := fs.ResolveIndirectPtr(Some(b), 0);
    DidOneMeans(b, [], Keys(fs.cache.entries), old(fs.fetched), fs.fetched);
    CachedTable(fs.View(), fs.cache.entries, b);
  }

  /** Caches the next table and then writes over it. */
  method WriteOverCached(fs: Ext2Fs, a: Addr, buf: seq<byte>, ghost v: Volume, ghost after: Volume)
    returns (hit: Option<Option<Addr>>)
    requires fs.Valid() && fs.View() == v && fs.cache.entries == [] && a + 1 < U32 && (a + 1) * fs.blockSize < U32
    requires a * fs.blockSize < U32 && after == v.(disk := BlockDevice.Written(v.disk, a * v.blockSize, buf))
    requires TableAt(v, a + 1).Ok? && TableAt(after, a + 1).Ok?
    requires |TableAt(v, a + 1).value| == |TableAt(after, a + 1).value| > 0
    requires TableAt(v, a + 1).value[0] != TableAt(after, a + 1).value[0]
    modifies fs, fs.cache, fs.device
    ensures fs.View() == after && !fs.Valid()
    ensures hit.Some? && Follow(fs.View(), Some(a + 1), 0).Ok? && hit.value != Follow(fs.View(), Some(a + 1), 0).value
  {
    hide TableAt, Harmless, BlockDevice.Written, Coherent, Rotated, Without;
    LoadTable(fs, a + 1);
    ghost var table := TableAt(v, a + 1).value;
    var written := fs.WriteBlock(a, buf);
    WithoutOther(a + 1, table, a);
    OneEntry(after, a + 1, table);
    hit := fs.cache.Lookup(a + 1, 0);
  }

  lemma OneEntry(v: Volume, b: Addr, table: Table)
    ensures b in Keys([Cached(b, table)]) && Rotated([Cached(b, table)], 0) == [Cached(b, table)]
    ensures TableAt(v, b) != Ok(table) ==> !Coherent(v, [Cached(b, table)])
  {
    hide TableAt;
    assert Keys([Cached(b, table)])[0] == b;
    assert [Cached(b, table)][0].addr == b;
  }

  lemma WritesBelow(size: nat, n: nat, a: Addr, len: nat)
    requires !Harmless(Blank(size, n), a, len)
    ensures len > size && (a + 1) * size < U32 && a * size < U32
  {
    MulNext(a, size);
  }

  /** For every write that is not harmless on devices of some size there is one on which, with the next
  table cached, it leaves the cache answering with a pointer the disk no longer holds. */
  method WriteUnderCache(size: nat, sector: nat, count: nat, a: Addr, buf: seq<byte>)
    returns (fs: Ext2Fs, hit: Option<Option<Addr>>)
    requires size >= 4 && sector > 0 && !Harmless(Blank(size, count * sector), a, |buf|)
    ensures fresh(fs) && fs.blockSize == size && |fs.device.data| == count * sector && !fs.Valid() && a + 1 < U32
    ensures hit.Some? && Follow(fs.View(), Some(a + 1), 0).Ok? && hit.value != Follow(fs.View(), Some(a + 1), 0).value
  {
    hide TableAt, Harmless, StaleDisk, BlockDevice.Written, Follow;
    ghost var v := Blank(size, count * sector);
    LongWriteLoses(v, a, buf);
    LongWriteGoesStale(v, a, buf);
    WritesBelow(size, count * sector, a, |buf|);
    var at, n := a * size, count * sector;
    var disk := StaleDisk(n, at, size, buf);
    var device := new BlockDevice.Device(sector, count, disk);
    fs := new Ext2Fs(size, device);
    ghost var before := Volume(size, size / 4, disk);
    hit := WriteOverCached(fs, a, buf, before, before.(disk := BlockDevice.Written(disk, at, buf)));
  }

  lemma WithoutOther(b: Addr, table: Table, a: Addr)
    requires a != b
    ensures Without([Cached(b, table)], a) == [Cached(b, table)]
  {
  }

  // ------------------------------------------------------------- the optimised build

  /** `n` bytes from block `a` on as a build without overflow checks reads them: the 32-bit product wraps. */
  function WrappedRead(v: Volume, a: Addr, n: nat): Result<seq<byte>, Error> {
    var at := a * v.blockSize % U32;
    if at + n > |v.disk| then Err(DeviceRead) else Ok(v.disk[at..at + n])
  }

  /** That build reads the right bytes of every disk, a block or a run of blocks, exactly if they start below 4 GiB. */
  lemma WrapExact(v: Volume, a: Addr, n: nat)
    requires v.Valid() && n > 0 && a * v.blockSize + n <= |v.disk|
    ensures a * v.blockSize < U32 <==>
      forall disk: seq<byte> :: |disk| == |v.disk| ==> WrappedRead(v.(disk := disk), a, n) == Ok(disk[a * v.blockSize..a * v.blockSize + n])
    ensures a * v.blockSize < U32 && n == v.blockSize ==> WrappedRead(v, a, n) == Block(v, a)
  {
    if a * v.blockSize >= U32 {
      var disk := WrapDisk(|v.disk|, a * v.blockSize, n);
      assert WrappedRead(v.(disk := disk), a, n) != Ok(disk[a * v.blockSize..a * v.blockSize + n]);
    }
  }

  /** A disk whose bytes at `at` differ from what lies at the wrapped offset. */
  lemma WrapDisk(size: nat, at: nat, n: nat) returns (disk: seq<byte>)
    requires n > 0 && at >= U32 && at + n <= size
    ensures |disk| == size && at % U32 + n <= |disk|
    ensures disk[at % U32..at % U32 + n] != disk[at..at + n]
  {
    disk := seq(size, i => if i == at then 1 else 0);
    assert disk[at..at + n][0] == 1 && disk[at % U32..at % U32 + n][0] == 0;
  }
}
