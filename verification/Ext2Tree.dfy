/** The block pointer tree of an ext2 inode: geometry, an uncached walk, and what it reaches. */
module Ext2Tree {
  import opened Basics
  import opened Bytes
  import opened Arith

  type Addr = a: nat | 0 < a < U32 witness 1
  type Table = seq<Option<Addr>>

  /** Overflow stands for the panic of a build with overflow checks. */
  datatype Error = DeviceRead | DeviceWrite | InvalidBlockIndex(i: nat) | Overflow

  datatype Inode = Inode(direct: seq<Option<Addr>>, single: Option<Addr>, double_: Option<Addr>, triple: Option<Addr>)

  /** A disk image with its block size; `p` pointers fit in a block. */
  datatype Volume = Volume(blockSize: nat, p: nat, disk: seq<byte>) {
    predicate Valid() {
      p == blockSize / 4 && p > 0
    }
  }

  const DIRECT := 12

  function SingleLimit(v: Volume): nat { DIRECT + v.p }
  function DoubleLimit(v: Volume): nat { SingleLimit(v) + v.p * v.p }
  function TripleLimit(v: Volume): nat { DoubleLimit(v) + v.p * v.p * v.p }

  // ------------------------------------------------------------- blocks and tables

  function ToAddr(x: nat): Option<Addr> {
    if 0 < x < U32 then Some(x) else None
  }

  function Block(v: Volume, a: Addr): Result<seq<byte>, Error> {
    if a * v.blockSize >= U32 then Err(Overflow)
    else if a * v.blockSize + v.blockSize > |v.disk| then Err(DeviceRead)
    else Ok(v.disk[a * v.blockSize..a * v.blockSize + v.blockSize])
  }

  /** The little-endian 32-bit pointers of a block; zero is a hole. */
  function Pointers(block: seq<byte>): Table {
    seq(|block| / 4, i requires 0 <= i < |block| / 4 => ToAddr(FromLe(block[4 * i..4 * i + 4])))
  }

  function TableAt(v: Volume, a: Addr): Result<Table, Error> {
    match Block(v, a)
    case Err(e) => Err(e)
    case Ok(block) => Ok(Pointers(block))
  }

  lemma TableSize(v: Volume, a: Addr)
    requires v.Valid() && TableAt(v, a).Ok?
    ensures |TableAt(v, a).value| == v.p
  {
  }

  // ------------------------------------------------------------- the uncached walk

  function Follow(v: Volume, ptr: Option<Addr>, index: nat): Result<Option<Addr>, Error> {
    match ptr
    case None => Ok(None)
    case Some(a) =>
      match TableAt(v, a)
      case Err(e) => Err(e)
      case Ok(table) => if index < |table| then Ok(table[index]) else Err(InvalidBlockIndex(index))
  }

  function FollowPair(v: Volume, ptr: Option<Addr>, first: nat, second: nat): Result<Option<Addr>, Error> {
    match Follow(v, ptr, first)
    case Err(e) => Err(e)
    case Ok(q) => Follow(v, q, second)
  }

  function FollowTwo(v: Volume, ptr: Option<Addr>, index: nat): Result<Option<Addr>, Error>
    requires v.Valid()
  {
    FollowPair(v, ptr, index / v.p, index % v.p)
  }

  /** Down a subtree whose middle blocks cover `span` indexes each. */
  function FollowDown(v: Volume, ptr: Option<Addr>, index: nat, span: nat): Result<Option<Addr>, Error>
    requires v.Valid() && span > 0
  {
    match Follow(v, ptr, index / span)
    case Err(e) => Err(e)
    case Ok(q) => FollowTwo(v, q, index % span)
  }

  function FollowThree(v: Volume, ptr: Option<Addr>, index: nat): Result<Option<Addr>, Error>
    requires v.Valid()
  {
    assert v.p * v.p > 0 by { MulLe(1, v.p, v.p); }
    FollowDown(v, ptr, index, v.p * v.p)
  }

  function Resolve(v: Volume, inode: Inode, i: nat): Result<Option<Addr>, Error>
    requires v.Valid() && |inode.direct| == DIRECT
  {
    if i < DIRECT then Ok(inode.direct[i])
    else if i < SingleLimit(v) then Follow(v, inode.single, i - DIRECT)
    else if i < DoubleLimit(v) then FollowTwo(v, inode.double_, i - SingleLimit(v))
    else if i >= TripleLimit(v) then Err(InvalidBlockIndex(i))
    else FollowThree(v, inode.triple, i - DoubleLimit(v))
  }

  // ------------------------------------------------------------- positions in the tree

  /** An indirect block of the tree: the root of a subtree, or a block numbered from the left
  among the middle blocks of the triple subtree or among the lowest blocks of a subtree. */
  datatype Node = Root(depth: nat) | Mid(q: nat) | Leaf(depth: nat, q: nat)

  /** Where the pointer of a block index is kept. */
  datatype Spot = InInode(i: nat) | InBlock(node: Node, at: nat)

  function Depth(v: Volume, i: nat): (d: nat)
    ensures d <= 3
  {
    if i < DIRECT then 0 else if i < SingleLimit(v) then 1 else if i < DoubleLimit(v) then 2 else 3
  }

  /** The index within its subtree. */
  function Local(v: Volume, i: nat): nat {
    if i < DIRECT then i
    else if i < SingleLimit(v) then i - DIRECT
    else if i < DoubleLimit(v) then i - SingleLimit(v)
    else i - DoubleLimit(v)
  }

  /** The indirect blocks on the way to index `k` of the subtree of depth `d`, from the root down. */
  function NodesDown(d: nat, k: nat, p: nat): (r: seq<Node>)
    requires d <= 3 && p > 0
    ensures |r| == d
  {
    if d == 0 then []
    else if d == 1 then [Root(1)]
    else if d == 2 then [Root(2), Leaf(2, k / p)]
    else [Root(3), Mid(k / p / p), Leaf(3, k / p)]
  }

  /** The indirect blocks on the way to a block index. */
  function Path(v: Volume, i: nat): (r: seq<Node>)
    requires v.Valid()
    ensures |r| == Depth(v, i)
  {
    NodesDown(Depth(v, i), Local(v, i), v.p)
  }

  function SpotOf(v: Volume, i: nat): Spot
    requires v.Valid()
  {
    var k := Local(v, i);
    if Depth(v, i) == 0 then InInode(i)
    else if Depth(v, i) == 1 then InBlock(Root(1), k)
    else InBlock(Leaf(Depth(v, i), k / v.p), k % v.p)
  }

  /** The address of an indirect block, if the blocks above it exist and can be read. */
  function NodeAddr(v: Volume, inode: Inode, n: Node): Option<Addr>
    requires v.Valid()
  {
    match n
    case Root(d) => if d == 1 then inode.single else if d == 2 then inode.double_ else inode.triple
    case Mid(q) => Entry(v, inode.triple, q)
    case Leaf(d, q) =>
      if d == 2 then Entry(v, inode.double_, q)
      else Entry(v, Entry(v, inode.triple, q / v.p), q % v.p)
  }

  function Entry(v: Volume, ptr: Option<Addr>, at: nat): Option<Addr> {
    match Follow(v, ptr, at)
    case Ok(r) => r
    case Err(_) => None
  }

  // ------------------------------------------------------------- properties of the tree

  /** Every index below the limit has a spot of its own. */
  lemma SpotsDistinct(v: Volume, i: nat, j: nat)
    requires v.Valid() && SpotOf(v, i) == SpotOf(v, j)
    ensures i == j
  {
    var p := v.p;
    var a, b := Local(v, i), Local(v, j);
    assert Depth(v, i) == Depth(v, j);
    if Depth(v, i) >= 2 {
      SameDigits(a, b, p);
    }
  }

  /** The walk delivers what its spot holds: the pointer in the lowest block on the path, or a hole
  where the path ends early; it fails only where a block on the path cannot be read. */
  lemma ResolveIsSpot(v: Volume, inode: Inode, i: nat)
    requires v.Valid() && |inode.direct| == DIRECT && i < TripleLimit(v)
    requires Resolve(v, inode, i).Ok?
    ensures Resolve(v, inode, i).value ==
      match SpotOf(v, i)
      case InInode(k) => inode.direct[k]
      case InBlock(n, at) => Entry(v, NodeAddr(v, inode, n), at)
  {
    Digits(Local(v, i), v.p);
  }

  /** The digits of an index below the limit are positions in a block. */
  lemma DigitBounds(v: Volume, i: nat)
    requires v.Valid() && i < TripleLimit(v)
    ensures Depth(v, i) == 2 ==> Local(v, i) / v.p < v.p
    ensures Depth(v, i) == 3 ==> v.p * v.p > 0 && Local(v, i) / (v.p * v.p) < v.p && Local(v, i) % (v.p * v.p) / v.p < v.p
  {
    var k, p := Local(v, i), v.p;
    if Depth(v, i) == 2 {
      DivBound(k, p, p);
    } else if Depth(v, i) == 3 {
      Digits(k, p);
      MulAssoc(p, p);
      DivBound(k, p * p, p);
    }
  }

  predicate Refused(r: Result<Option<Addr>, Error>) {
    r.Err? && r.error.InvalidBlockIndex?
  }

  lemma FollowInRange(v: Volume, ptr: Option<Addr>, index: nat)
    requires v.Valid() && index < v.p
    ensures !Refused(Follow(v, ptr, index))
  {
  }

  lemma FollowTwoInRange(v: Volume, ptr: Option<Addr>, index: nat)
    requires v.Valid() && index / v.p < v.p
    ensures !Refused(FollowTwo(v, ptr, index))
  {
    var first := Follow(v, ptr, index / v.p);
    FollowInRange(v, ptr, index / v.p);
    if first.Ok? {
      FollowInRange(v, first.value, index % v.p);
    }
  }

  lemma FollowThreeInRange(v: Volume, ptr: Option<Addr>, index: nat, pp: nat)
    requires v.Valid() && pp == v.p * v.p && pp > 0 && index / pp < v.p && index % pp / v.p < v.p
    ensures !Refused(FollowThree(v, ptr, index))
  {
    var first := Follow(v, ptr, index / pp);
    FollowInRange(v, ptr, index / pp);
    if first.Ok? {
      FollowTwoInRange(v, first.value, index % pp);
    }
  }

  /** An index is refused as invalid exactly when it is at or above the limit of the tree. */
  lemma ResolveLimit(v: Volume, inode: Inode, i: nat)
    requires v.Valid() && |inode.direct| == DIRECT
    ensures Refused(Resolve(v, inode, i)) <==> i >= TripleLimit(v)
  {
    if i < TripleLimit(v) {
      DigitBounds(v, i);
      var k := Local(v, i);
      if Depth(v, i) == 1 {
        FollowInRange(v, inode.single, k);
      } else if Depth(v, i) == 2 {
        FollowTwoInRange(v, inode.double_, k);
      } else if Depth(v, i) == 3 {
        FollowThreeInRange(v, inode.triple, k, v.p * v.p);
      }
    }
  }
}
