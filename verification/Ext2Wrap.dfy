/** Reads at 4 GiB and beyond, which deliver the bytes of an earlier place.

For every offset there, a sparse file with a single data block shows it: the block holds sevens and is
where the low 32 bits of the offset point, everything else is a hole, and so is the place asked for. */
module Ext2Wrap {
  import opened Basics
  import opened Bytes
  import opened Arith
  import opened Ext2Tree
  import opened Ext2Read
  import opened Ext2File
  import BlockDevice

  // ------------------------------------------------------------- a disk with one chain of tables

  /** A pointer block with one entry, number `i`. */
  function Table(size: nat, i: nat, a: Addr): (r: seq<byte>)
    requires 4 * i + 4 <= size
    ensures |r| == size
  {
    Splice(Zeros(size), 4 * i, Le(a, 4))
  }

  lemma TableEntry(size: nat, i: nat, a: Addr, j: nat)
    requires i < size / 4 && j < size / 4
    ensures Pointers(Table(size, i, a))[j] == if j == i then Some(a) else None
  {
    var t := Table(size, i, a);
    var word := t[4 * j..4 * j + 4];
    if j == i {
      assert word == Le(a, 4);
      Pow256Values();
      FromLeLe(a, 4);
    } else {
      forall k | 0 <= k < 4 ensures word[k] == 0 {
        assert word[k] == t[4 * j + k];
      }
      assert word == Le(0, 4);
      FromLeLe(0, 4);
    }
  }

  function Sevens(n: nat): (r: seq<byte>)
    ensures |r| == n && forall i :: 0 <= i < n ==> r[i] == 7
  {
    seq(n, _ => 7)
  }

  /** Block 1 points to 2, block 2 to 3, block 3 to the data in block 4, each at one index. */
  function Chain(size: nat, i1: nat, i2: nat, i3: nat): (r: seq<byte>)
    requires i1 < size / 4 && i2 < size / 4 && i3 < size / 4
    ensures |r| == 5 * size
  {
    Zeros(size) + Table(size, i1, 2) + Table(size, i2, 3) + Table(size, i3, 4) + Sevens(size)
  }

  lemma ChainBlocks(size: nat, i1: nat, i2: nat, i3: nat)
    requires i1 < size / 4 && i2 < size / 4 && i3 < size / 4
    ensures var d := Chain(size, i1, i2, i3);
      && d[size..size + size] == Table(size, i1, 2)
      && d[2 * size..2 * size + size] == Table(size, i2, 3)
      && d[3 * size..3 * size + size] == Table(size, i3, 4)
      && d[4 * size..4 * size + size] == Sevens(size)
  {
    hide Table, Sevens;
  }

  /** What following table `a` at an index gives: the next block at `i`, a hole elsewhere. */
  ghost predicate LeadsTo(v: Volume, a: Addr, i: nat, next: Addr)
    requires v.Valid()
  {
    forall j :: 0 <= j < v.p ==> Follow(v, Some(a), j) == Ok(if j == i then Some(next) else None)
  }

  lemma TableLeads(v: Volume, a: Addr, i: nat, next: Addr)
    requires v.Valid() && i < v.p && a * v.blockSize < U32 && a * v.blockSize + v.blockSize <= |v.disk|
    requires v.disk[a * v.blockSize..a * v.blockSize + v.blockSize] == Table(v.blockSize, i, next)
    ensures LeadsTo(v, a, i, next)
  {
    hide Table, Pointers;
    TableLength(Table(v.blockSize, i, next));
    forall j | 0 <= j < v.p ensures Follow(v, Some(a), j) == Ok(if j == i then Some(next) else None) {
      TableEntry(v.blockSize, i, next, j);
    }
  }

  lemma TableLength(block: seq<byte>)
    ensures |Pointers(block)| == |block| / 4
  {
  }

  ghost predicate Chained(v: Volume, i1: nat, i2: nat, i3: nat)
    requires v.Valid()
  {
    LeadsTo(v, 1, i1, 2) && LeadsTo(v, 2, i2, 3) && LeadsTo(v, 3, i3, 4)
  }

  lemma ChainLeads(v: Volume, i1: nat, i2: nat, i3: nat)
    requires v.Valid() && i1 < v.p && i2 < v.p && i3 < v.p && 5 * v.blockSize <= U32
    requires v.disk == Chain(v.blockSize, i1, i2, i3)
    ensures Chained(v, i1, i2, i3)
  {
    hide Chain, LeadsTo, Table;
    ChainBlocks(v.blockSize, i1, i2, i3);
    TableLeads(v, 1, i1, 2);
    TableLeads(v, 2, i2, 3);
    TableLeads(v, 3, i3, 4);
  }

  // ------------------------------------------------------------- the file with one block

  /** An inode that reaches the chain where block `k` of depth `d` would be. */
  function SparseInode(d: nat, k: nat): (r: Inode)
    ensures |r.direct| == DIRECT
  {
    Inode(seq(DIRECT, j => if d == 0 && j == k then Some(4) else None),
          if d == 1 then Some(3) else None,
          if d == 2 then Some(2) else None,
          if d == 3 then Some(1) else None)
  }

  lemma TwoLevels(v: Volume, i2: nat, i3: nat, q: nat, r: nat)
    requires v.Valid() && LeadsTo(v, 2, i2, 3) && LeadsTo(v, 3, i3, 4) && q < v.p && r < v.p
    ensures FollowPair(v, Some(2), q, r) == Ok(if q == i2 && r == i3 then Some(4) else None)
  {
    HoleOne(v, r);
    hide Follow;
  }

  lemma HoleOne(v: Volume, l: nat)
    ensures Follow(v, None, l) == Ok(None)
  {
  }

  lemma ThreeLevels(v: Volume, i1: nat, i2: nat, i3: nat, l: nat, pp: nat)
    requires v.Valid() && Chained(v, i1, i2, i3) && pp == v.p * v.p && pp > 0 && l / pp < v.p && l % pp / v.p < v.p
    ensures FollowDown(v, Some(1), l, pp) ==
      Ok(if l / pp == i1 && l % pp / v.p == i2 && l % pp % v.p == i3 then Some(4) else None)
  {
    hide Follow, FollowPair;
    TwoLevels(v, i2, i3, l % pp / v.p, l % pp % v.p);
    HoleTwo(v, l % pp);
  }

  lemma HoleTwo(v: Volume, l: nat)
    requires v.Valid()
    ensures FollowTwo(v, None, l) == Ok(None)
  {
  }

  /** The digits of index `l` of a subtree. */
  function High(l: nat, p: nat): (r: nat)
    requires p > 0
    ensures r < p
  {
    l / p / p % p
  }

  function Middle(l: nat, p: nat): (r: nat)
    requires p > 0
    ensures r < p
  {
    l / p % p
  }

  function Low(l: nat, p: nat): (r: nat)
    requires p > 0
    ensures r < p
  {
    l % p
  }

  ghost predicate Fits(l: nat, p: nat, i1: nat, i2: nat, i3: nat)
    requires p > 0
  {
    i3 == Low(l, p) && i2 == Middle(l, p) && i1 == High(l, p)
  }

  lemma SmallMod(l: nat, p: nat)
    requires l < p
    ensures l % p == l
  {
  }

  lemma SingleOnly(v: Volume, i3: nat, l: nat, m: nat)
    requires v.Valid() && LeadsTo(v, 3, i3, 4) && i3 == l % v.p && l < v.p && m < v.p
    ensures Follow(v, Some(3), m) == Ok(if m == l then Some(4) else None)
  {
    SmallMod(l, v.p);
  }

  lemma DoubleOnly(v: Volume, i2: nat, i3: nat, l: nat, m: nat)
    requires v.Valid() && LeadsTo(v, 2, i2, 3) && LeadsTo(v, 3, i3, 4) && i3 == l % v.p && i2 == l / v.p % v.p
    requires l / v.p < v.p && m / v.p < v.p
    ensures FollowTwo(v, Some(2), m) == Ok(if m == l then Some(4) else None)
  {
    hide LeadsTo, FollowPair;
    SmallMod(l / v.p, v.p);
    TwoLevels(v, i2, i3, m / v.p, m % v.p);
    if m / v.p == i2 && m % v.p == i3 {
      SameDigits(l, m, v.p);
    }
  }

  lemma TripleOnly(v: Volume, i1: nat, i2: nat, i3: nat, l: nat, m: nat)
    requires v.Valid() && Chained(v, i1, i2, i3) && Fits(l, v.p, i1, i2, i3)
    requires l / (v.p * v.p) < v.p && m / (v.p * v.p) < v.p && v.p * v.p > 0
    ensures FollowThree(v, Some(1), m) == Ok(if m == l then Some(4) else None)
  {
    hide Chained, FollowDown;
    var p, pp := v.p, v.p * v.p;
    Digits(l, p);
    Digits(m, p);
    SmallMod(l / p / p, p);
    ThreeLevels(v, i1, i2, i3, m, pp);
    if m / p / p == l / p / p && m / p % p == l / p % p && m % p == l % p {
      SameDigits(l / p, m / p, p);
      SameDigits(l, m, p);
    }
  }

  /** The file has a single block, number `k`: every other index is a hole or out of range. */
  lemma OnlyBlock(v: Volume, k: nat, i1: nat, i2: nat, i3: nat, m: nat)
    requires v.Valid() && k < TripleLimit(v) && Chained(v, i1, i2, i3) && Fits(Local(v, k), v.p, i1, i2, i3)
    ensures m < TripleLimit(v) ==>
      Resolve(v, SparseInode(Depth(v, k), k), m) == Ok(if m == k then Some(4) else None)
  {
    hide Chained, FollowThree, FollowTwo, Follow;
    if m < TripleLimit(v) {
      DigitBounds(v, k);
      DigitBounds(v, m);
      var inode := SparseInode(Depth(v, k), k);
      if Depth(v, m) != Depth(v, k) {
        EmptySubtree(v, k, m);
      } else {
        SameSubtree(v, k, i1, i2, i3, m);
      }
    }
  }

  lemma EmptySubtree(v: Volume, k: nat, m: nat)
    requires v.Valid() && m < TripleLimit(v) && Depth(v, m) != Depth(v, k)
    ensures Resolve(v, SparseInode(Depth(v, k), k), m) == Ok(None)
  {
  }

  lemma SameSubtree(v: Volume, k: nat, i1: nat, i2: nat, i3: nat, m: nat)
    requires v.Valid() && k < TripleLimit(v) && Chained(v, i1, i2, i3) && Fits(Local(v, k), v.p, i1, i2, i3)
    requires m < TripleLimit(v) && Depth(v, m) == Depth(v, k)
    ensures Resolve(v, SparseInode(Depth(v, k), k), m) == Ok(if m == k then Some(4) else None)
  {
    hide Follow, FollowTwo, FollowThree, LeadsTo;
    var l, n := Local(v, k), Local(v, m);
    DigitBounds(v, k);
    DigitBounds(v, m);
    if Depth(v, k) == 1 {
      SingleOnly(v, i3, l, n);
    } else if Depth(v, k) == 2 {
      DoubleOnly(v, i2, i3, l, n);
    } else if Depth(v, k) == 3 {
      TripleOnly(v, i1, i2, i3, l, n);
    }
  }

  // ------------------------------------------------------------- every offset from 4 GiB on

  /** ext2 block sizes start at 1024, so 32 bits of offset never leave the tree. */
  lemma WithinTree(v: Volume, o: nat)
    requires v.Valid() && v.blockSize >= 1024 && o < U32
    ensures o / v.blockSize < TripleLimit(v)
  {
    var p := v.p;
    DivBound(o, v.blockSize, 0x40_0000) by {
      MulLe(1024, v.blockSize, 0x40_0000);
    }
    MulLe(256, p, 256);
    MulLe(256, p, p);
    MulLe(0x1_0000, p * p, 256);
    MulLe(256, p, p * p);
  }

  /** A volume and an inode of a file that has only block `k`. */
  function WrapVolume(size: nat, p: nat, k: nat): (v: Volume)
    requires p == size / 4 && p > 0
    ensures v.Valid() && v.blockSize == size && v.p == p && |v.disk| == 5 * size
  {
    var l := Local(Volume(size, p, []), k);
    Volume(size, p, Chain(size, High(l, p), Middle(l, p), Low(l, p)))
  }

  function WrapInode(size: nat, p: nat, k: nat): (r: Inode)
    ensures |r.direct| == DIRECT
  {
    SparseInode(Depth(Volume(size, p, []), k), k)
  }

  lemma SameShape(size: nat, p: nat, disk: seq<byte>, k: nat)
    ensures var shape, v := Volume(size, p, []), Volume(size, p, disk);
      Local(v, k) == Local(shape, k) && Depth(v, k) == Depth(shape, k)
  {
  }

  lemma WrapResolves(size: nat, p: nat, k: nat, m: nat)
    requires p == size / 4 && p > 0 && 5 * size <= U32 && k < TripleLimit(WrapVolume(size, p, k))
    ensures m == k ==> Resolve(WrapVolume(size, p, k), WrapInode(size, p, k), m) == Ok(Some(4))
    ensures m != k ==> PointerOf(WrapVolume(size, p, k), WrapInode(size, p, k), m) == None
  {
    hide Resolve, Chained, Chain, Local, Depth, High, Middle, Low, TripleLimit, SparseInode;
    var v := WrapVolume(size, p, k);
    SameShape(size, p, v.disk, k);
    var l := Local(v, k);
    ChainLeads(v, High(l, p), Middle(l, p), Low(l, p));
    OnlyBlock(v, k, High(l, p), Middle(l, p), Low(l, p), m);
    if m >= TripleLimit(v) {
      ResolveLimit(v, WrapInode(size, p, k), m);
    }
  }

  lemma DataBlock(v: Volume, i1: nat, i2: nat, i3: nat)
    requires v.Valid() && i1 < v.p && i2 < v.p && i3 < v.p && v.disk == Chain(v.blockSize, i1, i2, i3)
    ensures BlockBytes(v, Some(4)) == Sevens(v.blockSize)
  {
    hide Chain, Sevens;
    ChainBlocks(v.blockSize, i1, i2, i3);
  }

  /** Of the whole file only block `k` is there, and it holds sevens. */
  ghost predicate OneBlockFile(v: Volume, inode: Inode, k: nat) {
    && v.Valid() && |v.disk| == 5 * v.blockSize <= U32 && |inode.direct| == DIRECT
    && Resolve(v, inode, k) == Ok(Some(4)) && BlockBytes(v, Some(4)) == Sevens(v.blockSize)
    && forall m :: m != k ==> PointerOf(v, inode, m) == None
  }

  lemma WrapIsOneBlock(size: nat, p: nat, k: nat)
    requires p == size / 4 && p > 0 && 5 * size <= U32 && k < TripleLimit(WrapVolume(size, p, k))
    ensures OneBlockFile(WrapVolume(size, p, k), WrapInode(size, p, k), k)
  {
    hide Chain, Local, High, Middle, Low, WrapInode, Resolve, BlockBytes, TripleLimit, PointerOf, Sevens;
    var v, inode := WrapVolume(size, p, k), WrapInode(size, p, k);
    var l := Local(Volume(size, p, []), k);
    DataBlock(v, High(l, p), Middle(l, p), Low(l, p));
    WrapResolves(size, p, k, k);
    forall m: nat | m != k ensures PointerOf(v, inode, m) == None {
      WrapResolves(size, p, k, m);
    }
  }

  lemma FirstCount(size: nat, o: nat)
    requires size > 0 && o + 1 < U32
    ensures Blocks(size, o, 1) == 1 && !ReadPanics(size, o, 1)
  {
  }

  lemma ReadsBlock(v: Volume, inode: Inode, k: nat, o: nat)
    requires OneBlockFile(v, inode, k) && o + 1 < U32 && k == o / v.blockSize
    ensures ReadGetsBlocks(v, inode, o, 1)
  {
    hide Resolve, Blocks, ReadPanics, Sevens;
    FirstCount(v.blockSize, o);
    var ptrs := PointersOf(v, inode, k, 1);
    assert ptrs[0] == PointerOf(v, inode, k + 0);
  }

  lemma OtherPlace(size: nat, o: nat, offset: nat)
    requires 0 < size && 5 * size <= U32 && o == offset % U32 && offset >= U32
    ensures offset / size != o / size
  {
    DivLess(o, size, o / size + 1);
    DivLess(offset, size, o / size + 1);
    MulNext(o / size, size);
  }

  lemma FileByteAt(v: Volume, inode: Inode, b: nat, k: nat, x: nat)
    requires v.Valid() && |inode.direct| == DIRECT && k == b / v.blockSize && x == b % v.blockSize
    ensures x < v.blockSize && FileByte(v, inode, b) == BlockBytes(v, PointerOf(v, inode, k))[x]
  {
    hide PointerOf, BlockBytes;
  }

  lemma DataByte(v: Volume, inode: Inode, k: nat, b: nat)
    requires OneBlockFile(v, inode, k) && b / v.blockSize == k
    ensures FileByte(v, inode, b) == 7
  {
    hide Resolve, BlockBytes, FileByte;
    FileByteAt(v, inode, b, k, b % v.blockSize);
  }

  lemma HoleByte(v: Volume, inode: Inode, k: nat, b: nat, m: nat)
    requires OneBlockFile(v, inode, k) && b / v.blockSize == m != k
    ensures FileByte(v, inode, b) == 0
  {
    hide Resolve, PointerOf, FileByte;
    FileByteAt(v, inode, b, m, b % v.blockSize);
  }

  /** At 4 GiB and beyond every read that gets through can be wrong: for each offset there is a volume and
  a file on which the one-byte read succeeds and delivers a byte the file does not have there. */
  lemma OffsetWraps(size: nat, p: nat, offset: nat, o: nat, k: nat)
    requires size >= 1024 && 5 * size <= U32 && p == size / 4
    requires offset >= U32 && o == offset % U32 && o + 1 < U32 && k == o / size
    ensures ReadGetsBlocks(WrapVolume(size, p, k), WrapInode(size, p, k), o, 1)
    ensures FileByte(WrapVolume(size, p, k), WrapInode(size, p, k), o) !=
      FileByte(WrapVolume(size, p, k), WrapInode(size, p, k), offset)
  {
    hide WrapVolume, WrapInode, FileByte, ReadGetsBlocks, TripleLimit, OneBlockFile;
    var v, inode := WrapVolume(size, p, k), WrapInode(size, p, k);
    WithinTree(v, o);
    WrapIsOneBlock(size, p, k);
    OtherPlace(size, o, offset);
    DataByte(v, inode, k, o);
    HoleByte(v, inode, k, offset, offset / size);
    ReadsBlock(v, inode, k, o);
  }

  function BlockIndex(o: nat, size: nat): (k: nat)
    requires size > 0
  {
    o / size
  }

  /** The read itself, on a device that holds that volume. */
  method ReadWrongByte(size: nat, offset: nat) returns (fs: Ext2Fs, inode: Inode, r: Result<seq<byte>, Error>)
    requires size >= 1024 && 5 * size <= U32 && offset >= U32 && offset % U32 + 1 < U32
    ensures fresh(fs) && fs.Valid() && |inode.direct| == DIRECT
    ensures r.Ok? && |r.value| == 1 && r.value[0] != FileByte(fs.View(), inode, offset)
  {
    hide WrapVolume, WrapInode, FileByte, ReadGetsBlocks;
    var k := BlockIndex(offset % U32, size);
    var v := WrapVolume(size, size / 4, k);
    inode := WrapInode(size, size / 4, k);
    OffsetWraps(size, size / 4, offset, offset % U32, k);
    var device := new BlockDevice.Device(size, 5, v.disk);
    fs := new Ext2Fs(size, device);
    r := ReadOneByte(fs, inode, offset, v);
  }

  method ReadOneByte(fs: Ext2Fs, inode: Inode, offset: nat, ghost v: Volume) returns (r: Result<seq<byte>, Error>)
    requires fs.Valid() && fs.View() == v && |inode.direct| == DIRECT && v.Valid()
    requires ReadGetsBlocks(v, inode, offset % U32, 1)
    modifies fs, fs.cache
    ensures fs.Valid() && fs.View() == v
    ensures r.Ok? && |r.value| == 1 && r.value[0] == FileByte(v, inode, offset % U32)
  {
    hide ReadGetsBlocks, FileByte;
    r := ReadFromFile(fs, inode, offset + 1, offset, 1);
    assert r.value[0] == FileByte(fs.View(), inode, offset % U32 + 0);
  }
}
