/** The 4-entry move-to-front cache of indirect blocks under a scan of increasing block indexes. */
module Ext2Scan {
  import opened Basics
  import opened Arith
  import opened Ext2Tree

  const CAPACITY := 4

  // ------------------------------------------------------------- the cache, as the addresses it holds

  function First(keys: seq<Addr>, a: Addr): (r: nat)
    requires a in keys
    ensures r < |keys| && keys[r] == a && a !in keys[..r]
  {
    if keys[0] == a then 0 else First(keys[1..], a) + 1
  }

  /** A hit moves to the front; a miss is inserted there and pushes out the last entry of a full cache. */
  function Touch(keys: seq<Addr>, a: Addr): seq<Addr> {
    if a in keys then
      var pos := First(keys, a);
      [a] + keys[..pos] + keys[pos + 1..]
    else [a] + (if |keys| >= CAPACITY then keys[..CAPACITY - 1] else keys)
  }

  /** The cache after resolving through the blocks `path`, and the blocks read on the way. */
  function After(keys: seq<Addr>, path: seq<Addr>): seq<Addr>
    decreases path
  {
    if path == [] then keys else After(Touch(keys, path[0]), path[1..])
  }

  function Reads(keys: seq<Addr>, path: seq<Addr>): seq<Addr>
    decreases path
  {
    if path == [] then [] else (if path[0] in keys then [] else [path[0]]) + Reads(Touch(keys, path[0]), path[1..])
  }

  ghost predicate InFront(keys: seq<Addr>, a: Addr, n: nat) {
    exists k :: 0 <= k < n && k < |keys| && keys[k] == a
  }

  lemma TouchFront(keys: seq<Addr>, a: Addr, b: Addr, n: nat)
    requires n < CAPACITY && InFront(keys, b, n)
    ensures InFront(Touch(keys, a), a, 1) && InFront(Touch(keys, a), b, n + 1)
  {
    assert Touch(keys, a)[0] == a;
    var k :| 0 <= k < n && k < |keys| && keys[k] == b;
    if a in keys {
      var pos := First(keys, a);
      if k < pos {
        assert Touch(keys, a)[k + 1] == b;
      } else if k > pos {
        assert Touch(keys, a)[k] == b;
      }
    } else {
      assert Touch(keys, a)[k + 1] == b;
    }
  }

  /** A block stays in front while at most `CAPACITY` minus its place more blocks are touched. */
  lemma {:induction false} AfterFront(keys: seq<Addr>, path: seq<Addr>, b: Addr, n: nat)
    requires InFront(keys, b, n) && n + |path| <= CAPACITY
    ensures b in After(keys, path)
    decreases path
  {
    if path != [] {
      TouchFront(keys, path[0], b, n);
      AfterFront(Touch(keys, path[0]), path[1..], b, n + 1);
    }
  }

  /** Everything on a path of at most four blocks is in the cache afterwards. */
  lemma {:induction false} AfterHolds(keys: seq<Addr>, path: seq<Addr>, k: nat)
    requires k < |path| <= CAPACITY
    ensures path[k] in After(keys, path)
    decreases path
  {
    var next := Touch(keys, path[0]);
    if k == 0 {
      assert next[0] == path[0];
      assert InFront(next, path[0], 1);
      AfterFront(next, path[1..], path[0], 1);
    } else {
      AfterHolds(next, path[1..], k - 1);
    }
  }

  lemma TouchHit(keys: seq<Addr>, a: Addr, b: Addr)
    requires a in keys && b in keys
    ensures b in Touch(keys, a)
  {
    var pos := First(keys, a);
    var k :| 0 <= k < |keys| && keys[k] == b;
    if k < pos {
      assert Touch(keys, a)[k + 1] == b;
    } else if k > pos {
      assert Touch(keys, a)[k] == b;
    } else {
      assert Touch(keys, a)[0] == b;
    }
  }

  /** Blocks at the head of the path that the cache holds are not read. */
  lemma {:induction false} HitsNotRead(keys: seq<Addr>, path: seq<Addr>, h: nat)
    requires h <= |path| && forall k :: 0 <= k < h ==> path[k] in keys
    ensures forall a :: a in Reads(keys, path) ==> a in path[h..]
    decreases path
  {
    if path != [] {
      var next := Touch(keys, path[0]);
      if h > 0 {
        forall k | 0 <= k < h - 1 ensures path[1..][k] in next {
          TouchHit(keys, path[0], path[k + 1]);
        }
        HitsNotRead(next, path[1..], h - 1);
        assert path[1..][h - 1..] == path[h..];
      } else {
        HitsNotRead(next, path[1..], 0);
        assert path[0..] == path && path[1..][0..] == path[1..];
      }
    }
  }

  lemma {:induction false} ReadsDistinct(keys: seq<Addr>, path: seq<Addr>)
    requires NoDup(path)
    ensures NoDup(Reads(keys, path))
    decreases path
  {
    if path != [] {
      var next := Touch(keys, path[0]);
      ReadsDistinct(next, path[1..]);
      HitsNotRead(next, path[1..], 0);
      assert path[1..][0..] == path[1..];
      assert path[0] !in path[1..];
    }
  }

  /** Touching one block and then the rest of a path. */
  lemma OneThenRest(keys: seq<Addr>, a: Addr, rest: seq<Addr>)
    ensures After(keys, [a] + rest) == After(Touch(keys, a), rest)
    ensures Reads(keys, [a] + rest) == (if a in keys then [] else [a]) + Reads(Touch(keys, a), rest)
  {
    assert ([a] + rest)[0] == a && ([a] + rest)[1..] == rest;
  }

  // ------------------------------------------------------------- the blocks a resolution visits

  /** The addresses along a path, up to the first missing block. */
  function Addresses(v: Volume, inode: Inode, path: seq<Node>): seq<Addr>
    requires v.Valid()
  {
    if path == [] || NodeAddr(v, inode, path[0]).None? then []
    else [NodeAddr(v, inode, path[0]).value] + Addresses(v, inode, path[1..])
  }

  function Visits(v: Volume, inode: Inode, i: nat): seq<Addr>
    requires v.Valid()
  {
    Addresses(v, inode, Path(v, i))
  }

  /** The blocks a resolution goes through: none for an index past the tree, which is refused at once. */
  function Visited(v: Volume, inode: Inode, i: nat): seq<Addr>
    requires v.Valid()
  {
    if i < TripleLimit(v) then Visits(v, inode, i) else []
  }

  lemma {:induction false} AddressesAt(v: Volume, inode: Inode, path: seq<Node>)
    requires v.Valid()
    ensures |Addresses(v, inode, path)| <= |path|
    ensures forall k :: 0 <= k < |Addresses(v, inode, path)| ==> NodeAddr(v, inode, path[k]) == Some(Addresses(v, inode, path)[k])
    ensures |Addresses(v, inode, path)| < |path| ==> NodeAddr(v, inode, path[|Addresses(v, inode, path)|]).None?
  {
    if path != [] {
      AddressesAt(v, inode, path[1..]);
    }
  }

  /** No block of the tree is pointed to from two places. */
  ghost predicate Distinct(v: Volume, inode: Inode)
    requires v.Valid()
  {
    forall m, n :: OnSomePath(v, m) && OnSomePath(v, n) && SameAddr(v, inode, m, n) ==> m == n
  }

  predicate SameAddr(v: Volume, inode: Inode, m: Node, n: Node)
    requires v.Valid()
  {
    NodeAddr(v, inode, m).Some? && NodeAddr(v, inode, m) == NodeAddr(v, inode, n)
  }

  ghost predicate OnPath(v: Volume, n: Node, i: nat)
    requires v.Valid()
  {
    n in Path(v, i)
  }

  ghost predicate OnSomePath(v: Volume, n: Node)
    requires v.Valid()
  {
    exists i :: OnPath(v, n, i)
  }

  function NodeDepth(n: Node): nat {
    match n
    case Root(d) => d
    case Mid(_) => 3
    case Leaf(d, _) => d
  }

  predicate Below(n: Node, d: nat, k: nat, p: nat)
    requires p > 0
  {
    BelowAt(n, d, LeafOf(k, p), MidOf(k, p))
  }

  /** The lowest block of a subtree that index `k` is under, and the middle one, counted from the left. */
  function LeafOf(k: nat, p: nat): nat
    requires p > 0
  {
    k / p
  }

  function MidOf(k: nat, p: nat): nat
    requires p > 0
  {
    k / p / p
  }

  lemma BlocksGrow(x: nat, y: nat, p: nat)
    requires p > 0 && x <= y
    ensures LeafOf(x, p) <= LeafOf(y, p) && MidOf(x, p) <= MidOf(y, p)
  {
    DivMono(x, y, p);
    DivMono(x / p, y / p, p);
  }

  predicate BelowAt(n: Node, d: nat, low: nat, high: nat) {
    match n
    case Root(r) => r == d && d >= 1
    case Mid(q) => d == 3 && q == high
    case Leaf(r, q) => r == d && d >= 2 && q == low
  }

  lemma BelowBetween(n: Node, d: nat, a: nat, b: nat, c: nat, a': nat, b': nat, c': nat)
    requires a <= b <= c && a' <= b' <= c' && BelowAt(n, d, a, a') && BelowAt(n, d, c, c')
    ensures BelowAt(n, d, b, b')
  {
  }

  lemma DownBelow(n: Node, d: nat, k: nat, p: nat)
    requires d <= 3 && p > 0
    ensures n in NodesDown(d, k, p) <==> Below(n, d, k, p)
  {
    var path := NodesDown(d, k, p);
    if Below(n, d, k, p) {
      assert path[match n case Root(_) => 0 case Mid(_) => 1 case Leaf(_, _) => d - 1] == n;
    }
  }

  lemma DownDepth(d: nat, k: nat, p: nat, n: Node)
    requires d <= 3 && p > 0 && n in NodesDown(d, k, p)
    ensures NodeDepth(n) == d
  {
    DownBelow(n, d, k, p);
  }

  lemma DownBetween(d: nat, p: nat, n: Node, x: nat, y: nat, z: nat)
    requires d <= 3 && p > 0 && x <= y <= z && n in NodesDown(d, x, p) && n in NodesDown(d, z, p)
    ensures n in NodesDown(d, y, p)
  {
    hide NodesDown, BelowAt, LeafOf, MidOf;
    DownBelow(n, d, x, p);
    DownBelow(n, d, y, p);
    DownBelow(n, d, z, p);
    BlocksGrow(x, y, p);
    BlocksGrow(y, z, p);
    BelowBetween(n, d, LeafOf(x, p), LeafOf(y, p), LeafOf(z, p), MidOf(x, p), MidOf(y, p), MidOf(z, p));
  }

  lemma DepthGrows(v: Volume, a: nat, b: nat)
    requires a <= b
    ensures Depth(v, a) <= Depth(v, b)
    ensures Depth(v, a) == Depth(v, b) ==> Local(v, a) <= Local(v, b)
  {
  }

  /** The indexes below a block are consecutive. */
  lemma Between(v: Volume, n: Node, a: nat, b: nat, c: nat)
    requires v.Valid() && a <= b <= c && OnPath(v, n, a) && OnPath(v, n, c)
    ensures OnPath(v, n, b)
  {
    hide Depth, Local, NodesDown;
    DownDepth(Depth(v, a), Local(v, a), v.p, n);
    DownDepth(Depth(v, c), Local(v, c), v.p, n);
    DepthGrows(v, a, b);
    DepthGrows(v, b, c);
    DownBetween(Depth(v, b), v.p, n, Local(v, a), Local(v, b), Local(v, c));
  }

  /** A block shared by two paths is at the same place in both, below the same blocks. */
  lemma SharedPrefix(v: Volume, i: nat, j: nat, k: nat)
    requires v.Valid() && k < |Path(v, j)| && OnPath(v, Path(v, j)[k], i)
    ensures k < |Path(v, i)| && Path(v, i)[..k + 1] == Path(v, j)[..k + 1]
  {
  }

  /** The blocks on one path are different blocks. */
  lemma VisitsNoDup(v: Volume, inode: Inode, i: nat)
    requires v.Valid() && Distinct(v, inode)
    ensures |Visits(v, inode, i)| <= 3 && NoDup(Visits(v, inode, i))
  {
    var path := Path(v, i);
    AddressesAt(v, inode, path);
    forall a, b | 0 <= a < b < |Visits(v, inode, i)| ensures Visits(v, inode, i)[a] != Visits(v, inode, i)[b] {
      assert OnPath(v, path[a], i) && OnPath(v, path[b], i);
      assert path[a] != path[b];
      assert !SameAddr(v, inode, path[a], path[b]);
    }
  }

  // ------------------------------------------------------------- the scan

  /** The device reads of resolving the indexes `xs` in order; a failed resolution ends the scan. */
  function Scan(v: Volume, inode: Inode, keys: seq<Addr>, xs: seq<nat>): seq<Addr>
    requires v.Valid() && |inode.direct| == DIRECT
    decreases xs
  {
    if xs == [] then []
    else
      var path := Visited(v, inode, xs[0]);
      Reads(keys, path) + (if Resolve(v, inode, xs[0]).Err? then [] else Scan(v, inode, After(keys, path), xs[1..]))
  }

  lemma ScanEnds(v: Volume, inode: Inode, keys: seq<Addr>, xs: seq<nat>)
    requires v.Valid() && |inode.direct| == DIRECT && (xs == [] || xs[0] >= TripleLimit(v))
    ensures Scan(v, inode, keys, xs) == []
  {
    if xs != [] {
      ResolveLimit(v, inode, xs[0]);
    }
  }

  ghost predicate Increasing(xs: seq<nat>) {
    forall i, j :: 0 <= i < j < |xs| ==> xs[i] < xs[j]
  }

  /** `a` is the address of a block that lies above some index up to `i`. */
  ghost predicate SeenUpTo(v: Volume, inode: Inode, i: nat, a: Addr)
    requires v.Valid()
  {
    exists n, b: nat :: b <= i && OnPath(v, n, b) && NodeAddr(v, inode, n) == Some(a)
  }

  /** How much of the path of the next index the cache still holds after the last one. */
  function Shared(a: seq<Node>, b: seq<Node>): (h: nat)
    ensures h <= |a| && h <= |b| && a[..h] == b[..h]
    ensures h < |a| && h < |b| ==> a[h] != b[h]
  {
    if a == [] || b == [] || a[0] != b[0] then 0 else 1 + Shared(a[1..], b[1..])
  }

  lemma {:induction false} SharedMost(a: seq<Node>, b: seq<Node>, n: nat)
    requires n <= |a| && n <= |b| && a[..n] == b[..n]
    ensures n <= Shared(a, b)
    decreases a
  {
    if n > 0 {
      assert a[0] == a[..n][0] == b[..n][0] == b[0];
      assert a[1..][..n - 1] == a[..n][1..] && b[1..][..n - 1] == b[..n][1..];
      SharedMost(a[1..], b[1..], n - 1);
    }
  }

  /** A block on the path of `j` that is not on the path of the last index is new to the scan. */
  lemma NewBlock(v: Volume, inode: Inode, last: nat, j: nat, k: nat)
    requires v.Valid() && Distinct(v, inode) && last < j && k < |Visits(v, inode, j)|
    requires k >= Shared(Path(v, j), Path(v, last))
    ensures k < |Path(v, j)| && !SeenUpTo(v, inode, last, Visits(v, inode, j)[k])
  {
    var path := Path(v, j);
    AddressesAt(v, inode, path);
    var n := path[k];
    assert OnPath(v, n, j);
    if OnPath(v, n, last) {
      SharedPrefix(v, last, j, k);
      SharedMost(path, Path(v, last), k + 1);
    }
    forall m, b: nat | b <= last && OnPath(v, m, b) ensures NodeAddr(v, inode, m) != Some(Visits(v, inode, j)[k]) {
      if m == n {
        Between(v, n, b, last, j);
      } else {
        assert !SameAddr(v, inode, m, n);
      }
    }
  }

  /** One step of the scan reads nothing an earlier step could have read. */
  lemma StepReadsNew(v: Volume, inode: Inode, keys: seq<Addr>, last: nat, j: nat)
    requires v.Valid() && Distinct(v, inode) && last < j
    requires forall a :: a in Visits(v, inode, last) ==> a in keys
    ensures forall a :: a in Reads(keys, Visits(v, inode, j)) ==> !SeenUpTo(v, inode, last, a)
  {
    var path, there := Path(v, j), Path(v, last);
    var visits := Visits(v, inode, j);
    AddressesAt(v, inode, path);
    AddressesAt(v, inode, there);
    var h := Min(Shared(path, there), |visits|);
    forall k | 0 <= k < h ensures visits[k] in keys {
      assert path[..h] == there[..h];
      assert path[k] == path[..h][k] == there[k];
      HeldToo(v, inode, last, j, k);
    }
    HitsNotRead(keys, visits, h);
    forall a | a in Reads(keys, visits) ensures !SeenUpTo(v, inode, last, a) {
      var k :| h <= k < |visits| && visits[k] == a;
      NewBlock(v, inode, last, j, k);
    }
  }

  /** A visited block that both paths share was visited for the last index too. */
  lemma HeldToo(v: Volume, inode: Inode, last: nat, j: nat, k: nat)
    requires v.Valid() && k < |Visits(v, inode, j)| && k < Shared(Path(v, j), Path(v, last))
    ensures Visits(v, inode, j)[k] in Visits(v, inode, last)
  {
    var path, there := Path(v, j), Path(v, last);
    AddressesAt(v, inode, path);
    AddressesAt(v, inode, there);
    var h := Shared(path, there);
    assert forall m :: 0 <= m < h ==> path[m] == path[..h][m] == there[..h][m] == there[m];
    assert k < |Visits(v, inode, last)|;
    assert Visits(v, inode, last)[k] == Visits(v, inode, j)[k];
  }

  lemma VisitsSeen(v: Volume, inode: Inode, i: nat, j: nat, a: Addr)
    requires v.Valid() && i <= j && a in Visits(v, inode, i)
    ensures SeenUpTo(v, inode, j, a)
  {
    AddressesAt(v, inode, Path(v, i));
    var k :| 0 <= k < |Visits(v, inode, i)| && Visits(v, inode, i)[k] == a;
    assert OnPath(v, Path(v, i)[k], i);
  }

  lemma AfterVisits(v: Volume, inode: Inode, keys: seq<Addr>, i: nat)
    requires v.Valid() && Distinct(v, inode)
    ensures forall a :: a in Visits(v, inode, i) ==> a in After(keys, Visits(v, inode, i))
  {
    VisitsNoDup(v, inode, i);
    var visits := Visits(v, inode, i);
    forall a | a in visits ensures a in After(keys, visits) {
      var k :| 0 <= k < |visits| && visits[k] == a;
      AfterHolds(keys, visits, k);
    }
  }

  lemma SeenMono(v: Volume, inode: Inode, i: nat, j: nat, a: Addr)
    requires v.Valid() && i <= j && SeenUpTo(v, inode, i, a)
    ensures SeenUpTo(v, inode, j, a)
  {
    var n, b: nat :| b <= i && OnPath(v, n, b) && NodeAddr(v, inode, n) == Some(a);
    assert b <= j;
  }

  /** The rest of a scan reads every block at most once, and none that was above an earlier index. */
  lemma {:induction false} ScanFrom(v: Volume, inode: Inode, keys: seq<Addr>, last: nat, xs: seq<nat>)
    requires v.Valid() && |inode.direct| == DIRECT && Distinct(v, inode) && Increasing(xs)
    requires xs != [] ==> last < xs[0]
    requires forall a :: a in Visits(v, inode, last) ==> a in keys
    ensures NoDup(Scan(v, inode, keys, xs))
    ensures forall a :: a in Scan(v, inode, keys, xs) ==> !SeenUpTo(v, inode, last, a)
    decreases xs
  {
    if xs == [] || xs[0] >= TripleLimit(v) {
      ScanEnds(v, inode, keys, xs);
    } else {
      var j, visits := xs[0], Visits(v, inode, xs[0]);
      StepReadsNew(v, inode, keys, last, j);
      VisitsNoDup(v, inode, j);
      ReadsDistinct(keys, visits);
      if Resolve(v, inode, j).Ok? {
        AfterVisits(v, inode, keys, j);
        ScanFrom(v, inode, After(keys, visits), j, xs[1..]);
        ScanJoin(v, inode, keys, last, j, Scan(v, inode, After(keys, visits), xs[1..]));
      }
    }
  }

  lemma NoDupJoin(a: seq<Addr>, b: seq<Addr>)
    requires NoDup(a) && NoDup(b) && forall x :: x in a ==> x !in b
    ensures NoDup(a + b)
  {
    forall i, j | 0 <= i < j < |a + b| ensures (a + b)[i] != (a + b)[j] {
      if i < |a| && |a| <= j {
        assert (a + b)[i] in a && (a + b)[j] in b;
      }
    }
  }

  lemma ScanJoin(v: Volume, inode: Inode, keys: seq<Addr>, last: nat, j: nat, rest: seq<Addr>)
    requires v.Valid() && last <= j && NoDup(Reads(keys, Visits(v, inode, j))) && NoDup(rest)
    requires forall a :: a in rest ==> !SeenUpTo(v, inode, j, a)
    ensures NoDup(Reads(keys, Visits(v, inode, j)) + rest)
    ensures forall a :: a in rest ==> !SeenUpTo(v, inode, last, a)
  {
    var fetched := Reads(keys, Visits(v, inode, j));
    HitsNotRead(keys, Visits(v, inode, j), 0);
    assert Visits(v, inode, j)[0..] == Visits(v, inode, j);
    forall a | a in fetched ensures a !in rest {
      VisitsSeen(v, inode, j, j, a);
    }
    NoDupJoin(fetched, rest);
    forall a | a in rest ensures !SeenUpTo(v, inode, last, a) {
      if SeenUpTo(v, inode, last, a) {
        SeenMono(v, inode, last, j, a);
      }
    }
  }

  /** From any cache, resolving strictly increasing block indexes of a file whose indirect blocks are
  distinct reads each of them from the device at most once. */
  lemma ScanReadsOnce(v: Volume, inode: Inode, keys: seq<Addr>, xs: seq<nat>)
    requires v.Valid() && |inode.direct| == DIRECT && Distinct(v, inode) && Increasing(xs)
    ensures NoDup(Scan(v, inode, keys, xs))
  {
    if xs == [] || xs[0] >= TripleLimit(v) {
      ScanEnds(v, inode, keys, xs);
    } else {
      var j, visits := xs[0], Visits(v, inode, xs[0]);
      VisitsNoDup(v, inode, j);
      ReadsDistinct(keys, visits);
      if Resolve(v, inode, j).Ok? {
        AfterVisits(v, inode, keys, j);
        ScanFrom(v, inode, After(keys, visits), j, xs[1..]);
        ScanJoin(v, inode, keys, j, j, Scan(v, inode, After(keys, visits), xs[1..]));
      }
    }
  }
}
