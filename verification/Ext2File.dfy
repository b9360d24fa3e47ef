/** Reading the blocks and the bytes of a file. */
module Ext2File {
  import opened Basics
  import opened Bytes
  import opened Arith
  import opened Ext2Tree
  import opened Ext2Scan
  import opened Ext2Read

  // ------------------------------------------------------------- one block at a time

  function Zeros(n: nat): (r: seq<byte>)
    ensures |r| == n && forall i :: 0 <= i < n ==> r[i] == 0
  {
    seq(n, _ => 0)
  }

  predicate OnDisk(v: Volume, a: Addr) {
    a * v.blockSize + v.blockSize <= |v.disk|
  }

  /** One block of a file: a hole reads as zeros. */
  function BlockBytes(v: Volume, ptr: Option<Addr>): (r: seq<byte>)
    ensures |r| == v.blockSize
  {
    if ptr.Some? && OnDisk(v, ptr.value) then v.disk[ptr.value * v.blockSize..ptr.value * v.blockSize + v.blockSize]
    else Zeros(v.blockSize)
  }

  /** The first `n` of the blocks `ptrs`, read one at a time. */
  function BlocksOf(v: Volume, ptrs: seq<Option<Addr>>, n: nat): seq<byte>
    requires n <= |ptrs|
  {
    if n == 0 then [] else BlocksOf(v, ptrs, n - 1) + BlockBytes(v, ptrs[n - 1])
  }

  /** Block `k` continues the device read of the block before it. */
  predicate Continues(ptrs: seq<Option<Addr>>, k: nat)
    requires k < |ptrs|
  {
    k > 0 && ptrs[k - 1].Some? && ptrs[k].Some? && ptrs[k - 1].value as int + 1 == ptrs[k].value as int
  }

  /** The block lies on the device, and where a device read starts its byte offset fits 32 bits. */
  predicate BlockReadable(v: Volume, ptrs: seq<Option<Addr>>, k: nat)
    requires k < |ptrs|
  {
    ptrs[k].Some? ==> OnDisk(v, ptrs[k].value) && (Continues(ptrs, k) || ptrs[k].value * v.blockSize < U32)
  }

  predicate CanRead(v: Volume, ptrs: seq<Option<Addr>>) {
    forall k :: 0 <= k < |ptrs| ==> BlockReadable(v, ptrs, k)
  }

  // ------------------------------------------------------------- runs

  /** Blocks `start` to `end` are holes of `n` bytes in all. */
  ghost predicate Holes(v: Volume, ptrs: seq<Option<Addr>>, start: nat, end: nat, n: nat) {
    && start < end <= |ptrs|
    && (forall k :: start <= k < end ==> ptrs[k].None?)
    && BlocksOf(v, ptrs, end) == BlocksOf(v, ptrs, start) + Zeros(n)
  }

  lemma HolesNext(v: Volume, ptrs: seq<Option<Addr>>, start: nat, end: nat, n: nat)
    requires start <= end < |ptrs| && ptrs[end].None?
    requires if start == end then n == 0 else Holes(v, ptrs, start, end, n)
    ensures Holes(v, ptrs, start, end + 1, n + v.blockSize)
  {
    assert Zeros(n) + Zeros(v.blockSize) == Zeros(n + v.blockSize);
  }

  /** Blocks `start` to `end` have consecutive addresses and are the `n` bytes at `at`, or run off the device. */
  ghost predicate Stretch(v: Volume, ptrs: seq<Option<Addr>>, start: nat, end: nat, at: nat, n: nat) {
    Adjacent(v, ptrs, start, end, at + n) && Covers(v, ptrs, start, end, at, n)
  }

  ghost predicate Adjacent(v: Volume, ptrs: seq<Option<Addr>>, start: nat, end: nat, reach: nat) {
    && start < end <= |ptrs|
    && (forall k :: start <= k < end ==> ptrs[k].Some?)
    && (forall k :: start < k < end ==> Continues(ptrs, k))
    && ptrs[end - 1].value * v.blockSize + v.blockSize == reach
  }

  ghost predicate Covers(v: Volume, ptrs: seq<Option<Addr>>, start: nat, end: nat, at: nat, n: nat)
    requires start <= end <= |ptrs| && forall k :: start <= k < end ==> ptrs[k].Some?
  {
    at + n <= |v.disk| ==>
      && (forall k :: start <= k < end ==> OnDisk(v, ptrs[k].value))
      && BlocksOf(v, ptrs, end) == BlocksOf(v, ptrs, start) + v.disk[at..at + n]
  }

  lemma StretchFirst(v: Volume, ptrs: seq<Option<Addr>>, start: nat)
    requires start < |ptrs| && ptrs[start].Some?
    ensures Stretch(v, ptrs, start, start + 1, ptrs[start].value * v.blockSize, v.blockSize)
  {
  }

  lemma StretchNext(v: Volume, ptrs: seq<Option<Addr>>, start: nat, end: nat, at: nat, n: nat)
    requires Stretch(v, ptrs, start, end, at, n) && end < |ptrs| && Continues(ptrs, end)
    ensures Stretch(v, ptrs, start, end + 1, at, n + v.blockSize)
  {
    hide OnDisk, BlockBytes, BlocksOf, Covers;
    NextBlock(v, ptrs[end - 1].value, ptrs[end].value, at + n);
    CoversNext(v, ptrs, start, end, at, n);
  }

  lemma CoversNext(v: Volume, ptrs: seq<Option<Addr>>, start: nat, end: nat, at: nat, n: nat)
    requires start < end < |ptrs| && (forall k :: start <= k <= end ==> ptrs[k].Some?) && Covers(v, ptrs, start, end, at, n)
    requires at + n + v.blockSize <= |v.disk| ==>
      OnDisk(v, ptrs[end].value) && BlockBytes(v, ptrs[end]) == v.disk[at + n..at + n + v.blockSize]
    ensures Covers(v, ptrs, start, end + 1, at, n + v.blockSize)
  {
    hide OnDisk, BlockBytes;
    if at + n + v.blockSize <= |v.disk| {
      JoinSlices(v.disk, at, n, v.blockSize);
      AddedBlock(BlocksOf(v, ptrs, start), v.disk[at..at + n], v.disk[at + n..at + n + v.blockSize]);
    }
  }

  /** The block after one that ends at `end` starts there. */
  lemma NextBlock(v: Volume, a: Addr, b: Addr, end: nat)
    requires a as int + 1 == b as int && a * v.blockSize + v.blockSize == end
    ensures b * v.blockSize + v.blockSize == end + v.blockSize
    ensures end + v.blockSize <= |v.disk| ==> OnDisk(v, b) && BlockBytes(v, Some(b)) == v.disk[end..end + v.blockSize]
  {
    MulNext(a, v.blockSize);
  }

  lemma AddedBlock(x: seq<byte>, y: seq<byte>, z: seq<byte>)
    ensures x + y + z == x + (y + z)
  {
  }

  lemma JoinSlices(s: seq<byte>, at: nat, n: nat, m: nat)
    requires at + n + m <= |s|
    ensures s[at..at + n] + s[at + n..at + n + m] == s[at..at + n + m]
  {
  }

  /** The end of the run of holes at `start`, and its length in bytes. */
  method HoleRun(v: Volume, ptrs: seq<Option<Addr>>, start: nat) returns (end: nat, n: nat)
    requires start < |ptrs| && ptrs[start].None?
    ensures start < end <= |ptrs| && Holes(v, ptrs, start, end, n)
    ensures end < |ptrs| ==> !Continues(ptrs, end)
  {
    end, n := start + 1, v.blockSize;
    HolesNext(v, ptrs, start, start, 0);
    while end < |ptrs| && ptrs[end].None?
      invariant Holes(v, ptrs, start, end, n)
    {
      HolesNext(v, ptrs, start, end, n);
      end, n := end + 1, n + v.blockSize;
    }
  }

  /** The end of the run of consecutive addresses at `start`, and its length in bytes. */
  method AddressRun(v: Volume, ptrs: seq<Option<Addr>>, start: nat, at: nat) returns (end: nat, n: nat)
    requires start < |ptrs| && ptrs[start].Some? && at == ptrs[start].value * v.blockSize
    ensures start < end <= |ptrs| && Stretch(v, ptrs, start, end, at, n) && n >= v.blockSize
    ensures end < |ptrs| ==> !Continues(ptrs, end)
  {
    hide Stretch, Continues;
    StretchFirst(v, ptrs, start);
    end, n := ExtendRun(v, ptrs, start, at);
  }

  method ExtendRun(v: Volume, ptrs: seq<Option<Addr>>, start: nat, at: nat) returns (end: nat, n: nat)
    requires start < |ptrs| && Stretch(v, ptrs, start, start + 1, at, v.blockSize)
    ensures start < end <= |ptrs| && Stretch(v, ptrs, start, end, at, n) && n >= v.blockSize
    ensures end < |ptrs| ==> !Continues(ptrs, end)
  {
    hide Stretch, Continues;
    end, n := start + 1, v.blockSize;
    while end < |ptrs| && Continues(ptrs, end)
      invariant start < end <= |ptrs|
      invariant Stretch(v, ptrs, start, end, at, n) && n >= v.blockSize
    {
      StretchNext(v, ptrs, start, end, at, n);
      end, n := end + 1, n + v.blockSize;
    }
  }

  ghost predicate ReadSoFar(v: Volume, ptrs: seq<Option<Addr>>, n: nat, buf: seq<byte>) {
    && n <= |ptrs| && buf == BlocksOf(v, ptrs, n)
    && (forall k :: 0 <= k < n ==> BlockReadable(v, ptrs, k))
  }

  lemma ReadNothing(v: Volume, ptrs: seq<Option<Addr>>)
    ensures ReadSoFar(v, ptrs, 0, []) && (ptrs != [] ==> !Continues(ptrs, 0))
  {
  }

  lemma ReadAll(v: Volume, ptrs: seq<Option<Addr>>, buf: seq<byte>)
    requires ReadSoFar(v, ptrs, |ptrs|, buf)
    ensures CanRead(v, ptrs) && buf == BlocksOf(v, ptrs, |ptrs|)
  {
    hide BlockReadable;
  }

  lemma HolesRead(v: Volume, ptrs: seq<Option<Addr>>, start: nat, end: nat, n: nat, buf: seq<byte>)
    requires ReadSoFar(v, ptrs, start, buf) && Holes(v, ptrs, start, end, n)
    ensures ReadSoFar(v, ptrs, end, buf + Zeros(n))
  {
  }

  lemma StretchRead(v: Volume, ptrs: seq<Option<Addr>>, start: nat, end: nat, at: nat, n: nat, buf: seq<byte>)
    requires ReadSoFar(v, ptrs, start, buf) && Stretch(v, ptrs, start, end, at, n) && at + n <= |v.disk|
    requires at == ptrs[start].value * v.blockSize && at < U32
    ensures ReadSoFar(v, ptrs, end, buf + v.disk[at..at + n])
  {
  }

  lemma StretchFails(v: Volume, ptrs: seq<Option<Addr>>, start: nat, end: nat, at: nat, n: nat)
    requires Stretch(v, ptrs, start, end, at, n) && at == ptrs[start].value * v.blockSize && !Continues(ptrs, start)
    requires at >= U32 || at + n > |v.disk|
    ensures !CanRead(v, ptrs)
  {
    assert !BlockReadable(v, ptrs, if at >= U32 then start else end - 1);
  }

  /** Reads the resolved blocks, one device read for each run of consecutive addresses. */
  method ReadRuns(fs: Ext2Fs, ptrs: seq<Option<Addr>>) returns (r: Result<seq<byte>, Error>)
    requires fs.Valid()
    ensures r.Ok? <==> CanRead(fs.View(), ptrs)
    ensures r.Ok? ==> r.value == BlocksOf(fs.View(), ptrs, |ptrs|)
  {
    hide Stretch, Holes, BlocksOf, CanRead, ReadSoFar, Continues, Coherent;
    var v := fs.View();
    var buf: seq<byte> := [];
    var start := 0;
    ReadNothing(v, ptrs);
    while start < |ptrs|
      invariant start <= |ptrs| && ReadSoFar(v, ptrs, start, buf)
      invariant start < |ptrs| ==> !Continues(ptrs, start)
    {
      if ptrs[start].None? {
        var end, n := HoleRun(v, ptrs, start);
        HolesRead(v, ptrs, start, end, n, buf);
        buf, start := buf + Zeros(n), end;
      } else {
        var at := ptrs[start].value * v.blockSize;
        var end, n := AddressRun(v, ptrs, start, at);
        if at >= U32 {
          StretchFails(v, ptrs, start, end, at, n);
          return Err(Overflow);
        }
        var data := fs.device.ReadAt(at, n);
        if data.Err? {
          StretchFails(v, ptrs, start, end, at, n);
          return Err(DeviceRead);
        }
        StretchRead(v, ptrs, start, end, at, n, buf);
        buf, start := buf + data.value, end;
      }
    }
    ReadAll(v, ptrs, buf);
    return Ok(buf);
  }

  // ------------------------------------------------------------- a range of blocks

  function Range(start: nat, count: nat): seq<nat>
    decreases count
  {
    if count == 0 then [] else [start] + Range(start + 1, count - 1)
  }

  lemma {:induction false} RangeIncreasing(start: nat, count: nat)
    ensures |Range(start, count)| == count && forall k :: 0 <= k < count ==> Range(start, count)[k] == start + k
    ensures Increasing(Range(start, count))
    decreases count
  {
    if count > 0 {
      RangeIncreasing(start + 1, count - 1);
    }
  }

  lemma ScanNext(v: Volume, inode: Inode, keys: seq<Addr>, i: nat, count: nat)
    requires v.Valid() && |inode.direct| == DIRECT && count > 0
    ensures Scan(v, inode, keys, Range(i, count)) == Reads(keys, Visited(v, inode, i)) +
      if Resolve(v, inode, i).Err? then [] else Scan(v, inode, After(keys, Visited(v, inode, i)), Range(i + 1, count - 1))
  {
    assert Range(i, count)[0] == i && Range(i, count)[1..] == Range(i + 1, count - 1);
  }

  /** What is still to be read, after what has been read. */
  ghost predicate ScanFromHere(v: Volume, inode: Inode, all: seq<Addr>, got: seq<Addr>, keys: seq<Addr>, i: nat, count: nat)
    requires v.Valid() && |inode.direct| == DIRECT
  {
    all == got + Scan(v, inode, keys, Range(i, count))
  }

  lemma ScanStep(v: Volume, inode: Inode, all: seq<Addr>, got: seq<Addr>, keys: seq<Addr>, i: nat, count: nat)
    requires v.Valid() && |inode.direct| == DIRECT && count > 0 && ScanFromHere(v, inode, all, got, keys, i, count)
    ensures Resolve(v, inode, i).Err? ==> all == got + Reads(keys, Visited(v, inode, i))
    ensures Resolve(v, inode, i).Ok? ==>
      ScanFromHere(v, inode, all, got + Reads(keys, Visited(v, inode, i)), After(keys, Visited(v, inode, i)), i + 1, count - 1)
  {
    ScanNext(v, inode, keys, i, count);
    Assoc(got, Reads(keys, Visited(v, inode, i)), Scan(v, inode, After(keys, Visited(v, inode, i)), Range(i + 1, count - 1)));
  }

  function PointerOf(v: Volume, inode: Inode, i: nat): Option<Addr>
    requires v.Valid() && |inode.direct| == DIRECT
  {
    if Resolve(v, inode, i).Ok? then Resolve(v, inode, i).value else None
  }

  function PointersOf(v: Volume, inode: Inode, start: nat, count: nat): (r: seq<Option<Addr>>)
    requires v.Valid() && |inode.direct| == DIRECT
    ensures |r| == count
  {
    seq(count, k requires 0 <= k < count => PointerOf(v, inode, start + k))
  }

  ghost predicate AllResolve(v: Volume, inode: Inode, start: nat, count: nat)
    requires v.Valid() && |inode.direct| == DIRECT
  {
    forall i :: start <= i < start + count ==> Resolve(v, inode, i).Ok?
  }

  ghost predicate Resolved(v: Volume, inode: Inode, start: nat, ptrs: seq<Option<Addr>>)
    requires v.Valid() && |inode.direct| == DIRECT
  {
    AllResolve(v, inode, start, |ptrs|) && ptrs == PointersOf(v, inode, start, |ptrs|)
  }

  lemma ResolvedNext(v: Volume, inode: Inode, start: nat, ptrs: seq<Option<Addr>>, x: Option<Addr>)
    requires v.Valid() && |inode.direct| == DIRECT && Resolved(v, inode, start, ptrs)
    requires Resolve(v, inode, start + |ptrs|) == Ok(x)
    ensures Resolved(v, inode, start, ptrs + [x])
  {
    hide Resolve;
    var more := PointersOf(v, inode, start, |ptrs| + 1);
    forall k | 0 <= k < |ptrs| + 1 ensures (ptrs + [x])[k] == more[k] {
      assert k < |ptrs| ==> ptrs[k] == PointersOf(v, inode, start, |ptrs|)[k];
    }
  }

  lemma ResolvedNone(v: Volume, inode: Inode, start: nat)
    requires v.Valid() && |inode.direct| == DIRECT
    ensures Resolved(v, inode, start, [])
  {
  }

  lemma ResolvedAll(v: Volume, inode: Inode, start: nat, ptrs: seq<Option<Addr>>)
    requires v.Valid() && |inode.direct| == DIRECT && Resolved(v, inode, start, ptrs)
    ensures AllResolve(v, inode, start, |ptrs|) && ptrs == PointersOf(v, inode, start, |ptrs|)
  {
  }

  lemma NotAllResolve(v: Volume, inode: Inode, start: nat, count: nat, i: nat)
    requires v.Valid() && |inode.direct| == DIRECT && start <= i < start + count && Resolve(v, inode, i).Err?
    ensures !AllResolve(v, inode, start, count)
  {
    hide Resolve;
  }

  lemma ScanStart(v: Volume, inode: Inode, keys: seq<Addr>, i: nat, count: nat)
    requires v.Valid() && |inode.direct| == DIRECT
    ensures ScanFromHere(v, inode, Scan(v, inode, keys, Range(i, count)), [], keys, i, count)
  {
    hide Scan, Range;
    var all := Scan(v, inode, keys, Range(i, count));
    assert all == [] + all;
  }

  /** Resolves `count` blocks in order, up to the first failure. */
  method ResolveRange(fs: Ext2Fs, inode: Inode, start: nat, count: nat) returns (r: Result<seq<Option<Addr>>, Error>)
    requires fs.Valid() && |inode.direct| == DIRECT
    modifies fs, fs.cache
    ensures fs.Valid() && fs.View() == old(fs.View())
    ensures r.Ok? <==> AllResolve(fs.View(), inode, start, count)
    ensures r.Ok? ==> r.value == PointersOf(fs.View(), inode, start, count)
    ensures fs.fetched == old(fs.fetched) + Scan(fs.View(), inode, Keys(old(fs.cache.entries)), Range(start, count))
  {
    hide Resolve, Scan, Resolved, ScanFromHere;
    ghost var v, log := fs.View(), fs.fetched;
    ghost var all := Scan(v, inode, Keys(fs.cache.entries), Range(start, count));
    ghost var got: seq<Addr> := [];
    var ptrs: seq<Option<Addr>> := [];
    ScanStart(v, inode, Keys(fs.cache.entries), start, count);
    ResolvedNone(v, inode, start);
    while |ptrs| < count
      invariant fs.Valid() && fs.View() == v && |ptrs| <= count
      invariant Resolved(v, inode, start, ptrs)
      invariant fs.fetched == log + got
      invariant ScanFromHere(v, inode, all, got, Keys(fs.cache.entries), start + |ptrs|, count - |ptrs|)
    {
      ghost var keys, now := Keys(fs.cache.entries), fs.fetched;
      var i := start + |ptrs|;
      var ptr := fs.ResolveBlockIndex(inode, i);
      ScanStep(v, inode, all, got, keys, i, count - |ptrs|);
      Assoc(log, got, Reads(keys, Visited(v, inode, i)));
      got := got + Reads(keys, Visited(v, inode, i));
      if ptr.Err? {
        NotAllResolve(v, inode, start, count, i);
        return Err(ptr.error);
      }
      ResolvedNext(v, inode, start, ptrs, ptr.value);
      ptrs := ptrs + [ptr.value];
    }
    ScanDone(v, inode, all, got, Keys(fs.cache.entries), start + |ptrs|);
    ResolvedAll(v, inode, start, ptrs);
    return Ok(ptrs);
  }

  lemma ScanDone(v: Volume, inode: Inode, all: seq<Addr>, got: seq<Addr>, keys: seq<Addr>, i: nat)
    requires v.Valid() && |inode.direct| == DIRECT && ScanFromHere(v, inode, all, got, keys, i, 0)
    ensures all == got
  {
  }

  ghost predicate FileReadable(v: Volume, inode: Inode, start: nat, count: nat)
    requires v.Valid() && |inode.direct| == DIRECT
  {
    AllResolve(v, inode, start, count) && CanRead(v, PointersOf(v, inode, start, count))
  }

  /** The run-coalescing read delivers what one read per block would, and on a file with distinct
  indirect blocks it fetches none of them twice. */
  method ReadBlocks(fs: Ext2Fs, inode: Inode, start: nat, count: nat) returns (r: Result<seq<byte>, Error>)
    requires fs.Valid() && |inode.direct| == DIRECT
    modifies fs, fs.cache
    ensures fs.Valid() && fs.View() == old(fs.View())
    ensures r.Ok? <==> FileReadable(fs.View(), inode, start, count)
    ensures r.Ok? ==> r.value == BlocksOf(fs.View(), PointersOf(fs.View(), inode, start, count), count)
    ensures Distinct(fs.View(), inode) ==> |old(fs.fetched)| <= |fs.fetched| && NoDup(fs.fetched[|old(fs.fetched)|..])
  {
    var ptrs := ResolveRange(fs, inode, start, count);
    if Distinct(fs.View(), inode) {
      FetchedOnce(fs.View(), inode, Keys(old(fs.cache.entries)), start, count, old(fs.fetched), fs.fetched);
    }
    if ptrs.Err? {
      return Err(ptrs.error);
    }
    r := ReadRuns(fs, ptrs.value);
  }

  lemma FetchedOnce(v: Volume, inode: Inode, keys: seq<Addr>, start: nat, count: nat, log: seq<Addr>, log': seq<Addr>)
    requires v.Valid() && |inode.direct| == DIRECT && Distinct(v, inode)
    requires log' == log + Scan(v, inode, keys, Range(start, count))
    ensures NoDup(log'[|log|..])
  {
    RangeIncreasing(start, count);
    ScanReadsOnce(v, inode, keys, Range(start, count));
    assert log'[|log|..] == Scan(v, inode, keys, Range(start, count));
  }

  // ------------------------------------------------------------- the bytes of a file

  /** Byte `b` of the file. */
  function FileByte(v: Volume, inode: Inode, b: nat): byte
    requires v.Valid() && |inode.direct| == DIRECT
  {
    BlockBytes(v, PointerOf(v, inode, b / v.blockSize))[b % v.blockSize]
  }

  ghost predicate IsFilePart(v: Volume, inode: Inode, from: nat, bytes: seq<byte>)
    requires v.Valid() && |inode.direct| == DIRECT
  {
    forall i :: 0 <= i < |bytes| ==> bytes[i] == FileByte(v, inode, from + i)
  }

  lemma {:induction false} BlocksLength(v: Volume, ptrs: seq<Option<Addr>>, n: nat)
    requires n <= |ptrs|
    ensures |BlocksOf(v, ptrs, n)| == n * v.blockSize
  {
    if n > 0 {
      BlocksLength(v, ptrs, n - 1);
      assert |BlocksOf(v, ptrs, n)| == |BlocksOf(v, ptrs, n - 1)| + v.blockSize;
      MulDist(n - 1, 1, v.blockSize);
    }
  }

  /** Byte `x` of block `k`, which starts at byte `at` of the blocks put together. */
  lemma {:induction false} BlocksAt(v: Volume, ptrs: seq<Option<Addr>>, n: nat, k: nat, x: nat, at: nat)
    requires k < n <= |ptrs| && x < v.blockSize && at == |BlocksOf(v, ptrs, k)|
    ensures at + x < |BlocksOf(v, ptrs, n)| && BlocksOf(v, ptrs, n)[at + x] == BlockBytes(v, ptrs[k])[x]
  {
    hide BlockBytes;
    if k < n - 1 {
      BlocksAt(v, ptrs, n - 1, k, x, at);
    }
  }

  lemma Shifted(start: nat, j: nat, size: nat)
    requires size > 0
    ensures (start * size + j) / size == start + j / size && (start * size + j) % size == j % size
  {
    MulDist(start, j / size, size);
    Euclid(start * size + j, size, start + j / size, j % size);
  }

  lemma ByteIsFile(v: Volume, inode: Inode, ptrs: seq<Option<Addr>>, start: nat, j: nat, k: nat, x: nat)
    requires v.Valid() && |inode.direct| == DIRECT && ptrs == PointersOf(v, inode, start, |ptrs|)
    requires k < |ptrs| && x < v.blockSize && j == |BlocksOf(v, ptrs, k)| + x
    requires (start * v.blockSize + j) / v.blockSize == start + k && (start * v.blockSize + j) % v.blockSize == x
    ensures j < |BlocksOf(v, ptrs, |ptrs|)|
    ensures BlocksOf(v, ptrs, |ptrs|)[j] == FileByte(v, inode, start * v.blockSize + j)
  {
    hide BlocksOf, BlockBytes, PointerOf;
    BlocksAt(v, ptrs, |ptrs|, k, x, j - x);
  }

  /** The blocks from block `start` on are the bytes of the file from byte `start * blockSize` on. */
  lemma BlocksAreFile(v: Volume, inode: Inode, start: nat, count: nat)
    requires v.Valid() && |inode.direct| == DIRECT
    ensures IsFilePart(v, inode, start * v.blockSize, BlocksOf(v, PointersOf(v, inode, start, count), count))
  {
    hide BlocksOf, PointersOf, IsFilePart;
    BlocksPart(v, inode, PointersOf(v, inode, start, count), start, start * v.blockSize);
  }

  lemma BlocksPart(v: Volume, inode: Inode, ptrs: seq<Option<Addr>>, start: nat, from: nat)
    requires v.Valid() && |inode.direct| == DIRECT && ptrs == PointersOf(v, inode, start, |ptrs|) && from == start * v.blockSize
    ensures IsFilePart(v, inode, from, BlocksOf(v, ptrs, |ptrs|))
  {
    hide BlocksOf, PointersOf, FileByte;
    var bytes := BlocksOf(v, ptrs, |ptrs|);
    forall j | 0 <= j < |bytes| ensures bytes[j] == FileByte(v, inode, from + j) {
      BlocksByte(v, inode, ptrs, start, from, j);
    }
  }

  lemma BlocksByte(v: Volume, inode: Inode, ptrs: seq<Option<Addr>>, start: nat, from: nat, j: nat)
    requires v.Valid() && |inode.direct| == DIRECT && ptrs == PointersOf(v, inode, start, |ptrs|) && from == start * v.blockSize
    requires j < |BlocksOf(v, ptrs, |ptrs|)|
    ensures BlocksOf(v, ptrs, |ptrs|)[j] == FileByte(v, inode, from + j)
  {
    hide BlocksOf, PointersOf, FileByte;
    var k, x := BlockOfByte(v, ptrs, start, j);
    ByteIsFile(v, inode, ptrs, start, j, k, x);
  }

  /** Which block byte `j` is in, and where, in the blocks put together and in the file. */
  lemma BlockOfByte(v: Volume, ptrs: seq<Option<Addr>>, start: nat, j: nat) returns (k: nat, x: nat)
    requires v.blockSize > 0 && j < |BlocksOf(v, ptrs, |ptrs|)|
    ensures k < |ptrs| && x < v.blockSize && j == |BlocksOf(v, ptrs, k)| + x
    ensures (start * v.blockSize + j) / v.blockSize == start + k && (start * v.blockSize + j) % v.blockSize == x
  {
    hide BlocksOf;
    BlocksLength(v, ptrs, |ptrs|);
    k, x := Split(j, v.blockSize, |ptrs|);
    BlocksLength(v, ptrs, k);
    Shifted(start, j, v.blockSize);
  }

  lemma Split(j: nat, size: nat, n: nat) returns (k: nat, x: nat)
    requires size > 0 && j < n * size
    ensures k == j / size && x == j % size && k < n && x < size && j == k * size + x
  {
    k, x := j / size, j % size;
    DivBound(j, size, n);
  }

  // ------------------------------------------------------------- read_from_file

  /** The 32-bit arithmetic of a read: the sum overflows, or an empty read starts on a block boundary. */
  predicate ReadPanics(size: nat, o: nat, len: nat)
    requires size > 0
  {
    o + len >= U32 || (len == 0 && o % size == 0)
  }

  /** How many blocks a read touches. */
  function BlockCount(size: nat, o: nat, len: nat): int
    requires size > 0 && o + len > 0
  {
    (o + len - 1) / size - o / size + 1
  }

  lemma CountSign(size: nat, o: nat, len: nat)
    requires size > 0 && o + len > 0
    ensures BlockCount(size, o, len) >= 0
    ensures BlockCount(size, o, len) == 0 <==> len == 0 && o % size == 0
  {
    if len > 0 {
      DivMono(o, o + len - 1, size);
    } else if o % size > 0 {
      Euclid(o - 1, size, o / size, o % size - 1);
    } else {
      Lower(o, size);
    }
  }

  lemma Lower(o: nat, size: nat)
    requires size > 0 && o > 0 && o % size == 0
    ensures (o - 1) / size == o / size - 1
  {
    var q := o / size;
    assert o == q * size;
    MulLe(1, size, size);
    if q > 0 {
      MulDist(q - 1, 1, size);
      Euclid(o - 1, size, q - 1, size - 1);
    }
  }

  lemma CountCovers(size: nat, o: nat, len: nat, s: nat, e: int)
    requires size > 0 && o + len > 0 && s == o / size && e == (o + len - 1) / size && e + 1 >= s
    ensures o == s * size + o % size
    ensures o % size + len <= (e - s + 1) * size
  {
    MulDist(s, e + 1 - s, size);
    MulDist(e, 1, size);
  }

  /** How many bytes are copied out of `data` bytes of blocks. */
  function Delivered(data: nat, o: nat, size: nat, len: nat): int {
    Min(Min(data, size - o), len)
  }

  /** The read gets through: no panic in its arithmetic, every block resolves and can be read, and the
  copy stays inside the blocks read, which for a buffer of 4 GiB or more it may not. */
  ghost predicate Delivers(v: Volume, inode: Inode, o: nat, size: nat, len: nat)
    requires v.Valid() && |inode.direct| == DIRECT
  {
    && ReadGetsBlocks(v, inode, o, len % U32)
    && o % v.blockSize + Delivered(Span(v.blockSize, o, len % U32), o, size, len) <= Span(v.blockSize, o, len % U32)
  }

  ghost predicate ReadGetsBlocks(v: Volume, inode: Inode, o: nat, n: nat)
    requires v.Valid() && |inode.direct| == DIRECT
  {
    !ReadPanics(v.blockSize, o, n) && FileReadable(v, inode, o / v.blockSize, Blocks(v.blockSize, o, n))
  }

  /** The number of blocks of a read that does not panic, and their bytes. */
  function Blocks(blockSize: nat, o: nat, n: nat): nat
    requires blockSize > 0
  {
    if o + n > 0 && BlockCount(blockSize, o, n) >= 0 then BlockCount(blockSize, o, n) else 0
  }

  function Span(blockSize: nat, o: nat, n: nat): nat
    requires blockSize > 0
  {
    Blocks(blockSize, o, n) * blockSize
  }

  lemma ShortSpan(blockSize: nat, o: nat, len: nat)
    requires blockSize > 0 && o + len > 0
    ensures o % blockSize + len <= Span(blockSize, o, len)
  {
    CountSign(blockSize, o, len);
    CountCovers(blockSize, o, len, o / blockSize, (o + len - 1) / blockSize);
  }

  /** A buffer below 4 GiB is filled up to the end of the file whenever its blocks can be read. */
  lemma ShortDelivers(v: Volume, inode: Inode, o: nat, size: nat, len: nat)
    requires v.Valid() && |inode.direct| == DIRECT && o < size && o + len > 0 && len < U32
    ensures Delivers(v, inode, o, size, len) <==> ReadGetsBlocks(v, inode, o, len)
    ensures Delivered(Span(v.blockSize, o, len), o, size, len) == Min(len, size - o)
  {
    hide ReadGetsBlocks, Span;
    ShortSpan(v.blockSize, o, len);
  }

  /** Reads at most `len` bytes from byte `offset` of a file of `size` bytes.  Offset and length are cut
  to 32 bits before anything is read.  Where a build with overflow checks panics, this is an error. */
  method ReadFromFile(fs: Ext2Fs, inode: Inode, size: nat, offset: nat, len: nat) returns (r: Result<seq<byte>, Error>)
    requires fs.Valid() && |inode.direct| == DIRECT
    modifies fs, fs.cache
    ensures fs.Valid() && fs.View() == old(fs.View())
    ensures offset >= size ==> r == Ok([])
    ensures offset < size && ReadPanics(fs.blockSize, offset % U32, len % U32) ==> r == Err(Overflow)
    ensures offset < size ==> (r.Ok? <==> Delivers(fs.View(), inode, offset % U32, size, len))
    ensures offset < size && len < U32 ==> (r.Ok? <==> ReadGetsBlocks(fs.View(), inode, offset % U32, len))
    ensures offset < size && r.Ok? ==> IsFilePart(fs.View(), inode, offset % U32, r.value)
    ensures offset < size && r.Ok? ==>
      |r.value| == Delivered(Span(fs.blockSize, offset % U32, len % U32), offset % U32, size, len)
    ensures offset < size && r.Ok? && len < U32 ==> |r.value| == Min(len, size - offset % U32)
  {
    hide FileReadable, IsFilePart, Delivered, Span, ReadPanics, BlockCount, Delivers, ReadGetsBlocks;
    if offset >= size {
      return Ok([]);
    }
    var o, n := offset % U32, len % U32;
    PanicExact(fs.blockSize, o, n);
    PanicDelivers(fs.View(), inode, o, size, len);
    if o + n >= U32 || o + n == 0 {
      return Err(Overflow);
    }
    if len < U32 {
      ShortDelivers(fs.View(), inode, o, size, len);
    }
    if BlockCount(fs.blockSize, o, n) == 0 {
      return Err(Overflow);
    }
    r := ReadAligned(fs, inode, size, o, len);
  }

  lemma PanicExact(size: nat, o: nat, n: nat)
    requires size > 0
    ensures ReadPanics(size, o, n) <==> o + n >= U32 || o + n == 0 || BlockCount(size, o, n) == 0
  {
    if o + n > 0 {
      CountSign(size, o, n);
    }
  }

  lemma PanicDelivers(v: Volume, inode: Inode, o: nat, size: nat, len: nat)
    requires v.Valid() && |inode.direct| == DIRECT
    ensures ReadPanics(v.blockSize, o, len % U32) ==>
      !Delivers(v, inode, o, size, len) && !ReadGetsBlocks(v, inode, o, len % U32)
  {
    hide FileReadable, Delivered, Span, ReadPanics, Blocks;
  }

  lemma DivMod(o: nat, size: nat)
    requires size > 0
    ensures o == o / size * size + o % size
  {
  }

  lemma PartOfPart(v: Volume, inode: Inode, from: nat, bytes: seq<byte>, k: nat, n: nat)
    requires v.Valid() && |inode.direct| == DIRECT && IsFilePart(v, inode, from, bytes) && k + n <= |bytes|
    ensures IsFilePart(v, inode, from + k, bytes[k..k + n])
  {
    hide FileByte;
    var part := bytes[k..k + n];
    forall i | 0 <= i < n ensures part[i] == FileByte(v, inode, from + k + i) {
      assert bytes[k + i] == FileByte(v, inode, from + (k + i));
    }
  }

  method ReadAligned(fs: Ext2Fs, inode: Inode, size: nat, o: nat, len: nat) returns (r: Result<seq<byte>, Error>)
    requires fs.Valid() && |inode.direct| == DIRECT && o < size && !ReadPanics(fs.blockSize, o, len % U32)
    modifies fs, fs.cache
    ensures fs.Valid() && fs.View() == old(fs.View())
    ensures r.Ok? <==> Delivers(fs.View(), inode, o, size, len)
    ensures r.Ok? ==> |r.value| == Delivered(Span(fs.blockSize, o, len % U32), o, size, len) && IsFilePart(fs.View(), inode, o, r.value)
  {
    hide FileReadable, BlocksOf, IsFilePart, Blocks, AllResolve;
    var start, relative, count := o / fs.blockSize, o % fs.blockSize, Blocks(fs.blockSize, o, len % U32);
    DivMod(o, fs.blockSize);
    var data := ReadBlocks(fs, inode, start, count);
    if data.Err? {
      return Err(data.error);
    }
    BlocksLength(fs.View(), PointersOf(fs.View(), inode, start, count), count);
    BlocksAreFile(fs.View(), inode, start, count);
    var total := Min(Min(|data.value|, size - o), len);
    if relative + total > |data.value| {
      return Err(Overflow);
    }
    PartOfPart(fs.View(), inode, start * fs.blockSize, data.value, relative, total);
    return Ok(data.value[relative..relative + total]);
  }
}
