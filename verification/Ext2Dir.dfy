/** Linked directory entries: parsing, listing, and splitting an entry to make room for a new one. */
module Ext2Dir {
  import opened Basics
  import opened Bytes

  const U16 := 0x1_0000

  datatype Entry = Entry(inode: nat, total: nat, name: seq<byte>, typ: Option<nat>)

  /** Header and name, rounded up to 4 bytes. */
  function EntrySize(n: nat): nat { (n + 11) / 4 * 4 }

  // ------------------------------------------------------------- bytes of one entry

  function NameLength(typed: bool, v: seq<byte>): nat
    requires |v| >= 8
  {
    if typed then v[6] as nat else v[6] as nat + 256 * (v[7] as nat)
  }

  /** The entry at the start of `v`; a zero inode or a name past the end panics. */
  function Parse(typed: bool, v: seq<byte>): Option<Entry> {
    if |v| < 8 then None
    else
      var n := NameLength(typed, v);
      if FromLe(v[..4]) == 0 || 8 + n > |v| then None
      else Some(Entry(FromLe(v[..4]), FromLe(v[4..6]), v[8..8 + n], if typed then Some(v[7] % 8) else None))
  }

  function Serialize(typed: bool, e: Entry): (s: seq<byte>)
    ensures |s| == 8 + |e.name|
  {
    Le(e.inode, 4) + Le(e.total, 2)
    + [|e.name| % 256, if typed && e.typ.Some? then e.typ.value % 256 else |e.name| / 256 % 256]
    + e.name
  }

  ghost predicate EntryOk(typed: bool, e: Entry) {
    && 0 < e.inode < U32 && e.total < U16 && |e.name| < U16
    && e.typ.Some? == typed && (typed ==> e.typ.value < 8)
  }

  /** What a name comes back as: with types on disk only the low byte of its length is kept. */
  function Stored(typed: bool, name: seq<byte>): (r: seq<byte>)
    ensures |r| <= |name|
  {
    if typed then name[..|name| % 256] else name
  }

  lemma SerializedParts(typed: bool, e: Entry, rest: seq<byte>)
    ensures var s := Serialize(typed, e) + rest;
      s[..4] == Le(e.inode, 4) && s[4..6] == Le(e.total, 2) && s[6] == |e.name| % 256
      && s[7] == (if typed && e.typ.Some? then e.typ.value % 256 else |e.name| / 256 % 256)
      && s[8..] == e.name + rest
  {
  }

  /** Parsing undoes serializing, up to the stored form of the name. */
  lemma ParseSerialize(typed: bool, e: Entry, rest: seq<byte>)
    requires EntryOk(typed, e)
    ensures Parse(typed, Serialize(typed, e) + rest) == Some(e.(name := Stored(typed, e.name)))
  {
    var s := Serialize(typed, e) + rest;
    SerializedParts(typed, e, rest);
    Pow256Values();
    FromLeLe(e.inode, 4);
    FromLeLe(e.total, 2);
    var n := NameLength(typed, s);
    assert n == if typed then |e.name| % 256 else |e.name|;
    assert s[8..8 + n] == s[8..][..n] == e.name[..n];
  }

  /** ... so an entry survives exactly when its name length fits the field it is written to. */
  lemma RoundTripExact(typed: bool, e: Entry, rest: seq<byte>)
    requires EntryOk(typed, e)
    ensures Parse(typed, Serialize(typed, e) + rest) == Some(e) <==> (typed ==> |e.name| <= 255)
  {
    ParseSerialize(typed, e, rest);
  }

  lemma ParseLocal(typed: bool, v: seq<byte>, v': seq<byte>, n: nat)
    requires Parse(typed, v).Some? && 8 + |Parse(typed, v).value.name| <= n <= |v| && n <= |v'| && v[..n] == v'[..n]
    ensures Parse(typed, v') == Parse(typed, v)
  {
    assert forall i :: 0 <= i < n ==> v[i] == v[..n][i] == v'[..n][i] == v'[i];
    assert v'[..4] == v[..4] && v'[4..6] == v[4..6];
    var k := NameLength(typed, v);
    assert v'[8..8 + k] == v[8..8 + k];
  }

  lemma ParsedOk(typed: bool, v: seq<byte>)
    requires Parse(typed, v).Some?
    ensures EntryOk(typed, Parse(typed, v).value)
    ensures typed ==> |Parse(typed, v).value.name| <= 255
  {
    LeFromLe(v[..4]);
    LeFromLe(v[4..6]);
    Pow256Values();
  }

  // ------------------------------------------------------------- entries that tile a block

  type Reader = nat -> Option<Entry>

  /** What each offset of a block parses as. */
  function Read(typed: bool, block: seq<byte>): Reader {
    (off: nat) => if off <= |block| then Parse(typed, block[off..]) else None
  }

  /** From `off` to `size` the block is filled exactly by the entries `es`. */
  ghost predicate Tiles(read: Reader, size: nat, off: nat, es: seq<Entry>)
    decreases es
  {
    if es == [] then off == size
    else
      && read(off) == Some(es[0])
      && EntrySize(|es[0].name|) <= es[0].total && es[0].total % 4 == 0 && off + es[0].total <= size
      && Tiles(read, size, off + es[0].total, es[1..])
  }

  ghost predicate BlockTiles(typed: bool, block: seq<byte>, es: seq<Entry>) {
    |block| % 4 == 0 && Tiles(Read(typed, block), |block|, 0, es)
  }

  function Offset(es: seq<Entry>, k: nat): nat
    requires k <= |es|
  {
    if k == 0 then 0 else Offset(es, k - 1) + es[k - 1].total
  }

  lemma {:induction false} OffsetTail(es: seq<Entry>, k: nat)
    requires 0 < k <= |es|
    ensures Offset(es, k) == es[0].total + Offset(es[1..], k - 1)
  {
    if k > 1 {
      OffsetTail(es, k - 1);
    }
  }

  lemma {:induction false} TilesFrom(read: Reader, size: nat, off: nat, es: seq<Entry>, k: nat)
    requires Tiles(read, size, off, es) && k <= |es|
    ensures off + Offset(es, k) <= size && Tiles(read, size, off + Offset(es, k), es[k..])
    decreases es
  {
    if k == 0 {
      assert es[0..] == es;
    } else {
      OffsetTail(es, k);
      TilesFrom(read, size, off + es[0].total, es[1..], k - 1);
      assert es[1..][k - 1..] == es[k..];
    }
  }

  /** Entry `k` is where its offset says, and the offsets go up. */
  lemma TileHead(read: Reader, size: nat, off: nat, es: seq<Entry>)
    requires Tiles(read, size, off, es) && es != []
    ensures read(off) == Some(es[0]) && off + es[0].total <= size
    ensures EntrySize(|es[0].name|) <= es[0].total && es[0].total % 4 == 0
    ensures Tiles(read, size, off + es[0].total, es[1..])
  {
  }

  lemma TileCons(read: Reader, size: nat, off: nat, e: Entry, es: seq<Entry>)
    requires read(off) == Some(e) && off + e.total <= size && EntrySize(|e.name|) <= e.total && e.total % 4 == 0
    requires Tiles(read, size, off + e.total, es)
    ensures Tiles(read, size, off, [e] + es)
  {
    assert ([e] + es)[1..] == es;
  }

  lemma {:induction false} TileAt(read: Reader, size: nat, es: seq<Entry>, k: nat)
    requires Tiles(read, size, 0, es) && k < |es|
    ensures read(Offset(es, k)) == Some(es[k]) && Offset(es, k) + es[k].total <= size
    ensures EntrySize(|es[k].name|) <= es[k].total && es[k].total % 4 == 0 && Offset(es, k) % 4 == 0
    decreases k
  {
    hide Tiles;
    TilesFrom(read, size, 0, es, k);
    TileHead(read, size, Offset(es, k), es[k..]);
    if k > 0 {
      TileAt(read, size, es, k - 1);
    }
  }

  lemma {:induction false} TilesSame(read: Reader, read': Reader, size: nat, off: nat, es: seq<Entry>)
    requires Tiles(read, size, off, es) && forall x: nat :: off <= x ==> read'(x) == read(x)
    ensures Tiles(read', size, off, es)
    decreases es
  {
    if es != [] {
      TilesSame(read, read', size, off + es[0].total, es[1..]);
    }
  }

  // ------------------------------------------------------------- splitting

  predicate HasRoom(e: Entry, required: nat) {
    e.total >= required + EntrySize(|e.name|)
  }

  /** An entry cut down to its own size, and what is left of its space for a new one. */
  function Cut(e: Entry): Entry { e.(total := EntrySize(|e.name|)) }

  function Filling(e: Entry, room: Entry): Entry {
    e.(total := if room.total >= EntrySize(|room.name|) then room.total - EntrySize(|room.name|) else 0)
  }

  function SplitAt(es: seq<Entry>, k: nat, e: Entry): seq<Entry>
    requires k < |es|
  {
    es[..k] + [Cut(es[k]), Filling(e, es[k])] + es[k + 1..]
  }

  lemma SplitHere(read: Reader, read': Reader, size: nat, at: nat, es: seq<Entry>, e: Entry)
    requires Tiles(read, size, at, es) && es != [] && HasRoom(es[0], EntrySize(|e.name|))
    requires read'(at) == Some(Cut(es[0])) && read'(at + EntrySize(|es[0].name|)) == Some(Filling(e, es[0]))
    requires forall x: nat :: at + es[0].total <= x ==> read'(x) == read(x)
    ensures Tiles(read', size, at, SplitAt(es, 0, e))
  {
    hide Tiles;
    var x, y := Cut(es[0]), Filling(e, es[0]);
    TileHead(read, size, at, es);
    TilesSame(read, read', size, at + es[0].total, es[1..]);
    TileCons(read', size, at + x.total, y, es[1..]);
    TileCons(read', size, at, x, [y] + es[1..]);
    assert SplitAt(es, 0, e) == [x] + ([y] + es[1..]);
  }

  lemma SplitTail(es: seq<Entry>, k: nat, e: Entry)
    requires 0 < k < |es|
    ensures SplitAt(es, k, e)[0] == es[0] && SplitAt(es, k, e)[1..] == SplitAt(es[1..], k - 1, e)
  {
  }

  /** A block reads the same before entry `k` and after it, and the two halves in its place. */
  ghost predicate SplitReads(read: Reader, read': Reader, off: nat, es: seq<Entry>, k: nat, e: Entry)
    requires k < |es|
  {
    var at := off + Offset(es, k);
    && (forall x: nat :: at + es[k].total <= x ==> read'(x) == read(x))
    && (forall j :: 0 <= j < k ==> read'(off + Offset(es, j)) == read(off + Offset(es, j)))
    && read'(at) == Some(Cut(es[k])) && read'(at + EntrySize(|es[k].name|)) == Some(Filling(e, es[k]))
  }

  lemma SplitReadsTail(read: Reader, read': Reader, off: nat, es: seq<Entry>, k: nat, e: Entry)
    requires 0 < k < |es| && SplitReads(read, read', off, es, k, e)
    ensures read'(off) == read(off) && SplitReads(read, read', off + es[0].total, es[1..], k - 1, e)
  {
    OffsetTail(es, k);
    assert read'(off + Offset(es, 0)) == read(off + Offset(es, 0));
    forall j | 0 <= j < k - 1
      ensures read'(off + es[0].total + Offset(es[1..], j)) == read(off + es[0].total + Offset(es[1..], j))
    {
      OffsetTail(es, j + 1);
      assert read'(off + Offset(es, j + 1)) == read(off + Offset(es, j + 1));
    }
  }

  /** Splitting entry `k` keeps the tiling, whatever comes before it. */
  lemma {:induction false} SplitTiles(read: Reader, read': Reader, size: nat, off: nat, es: seq<Entry>, k: nat, e: Entry)
    requires Tiles(read, size, off, es) && k < |es| && HasRoom(es[k], EntrySize(|e.name|))
    requires SplitReads(read, read', off, es, k, e)
    ensures Tiles(read', size, off, SplitAt(es, k, e))
    decreases es
  {
    hide Tiles;
    if k == 0 {
      SplitHere(read, read', size, off, es, e);
    } else {
      TileHead(read, size, off, es);
      SplitReadsTail(read, read', off, es, k, e);
      SplitTiles(read, read', size, off + es[0].total, es[1..], k - 1, e);
      SplitTail(es, k, e);
      TileCons(read', size, off, es[0], SplitAt(es[1..], k - 1, e));
      assert SplitAt(es, k, e) == [es[0]] + SplitAt(es[1..], k - 1, e);
    }
  }

  // ------------------------------------------------------------- the bytes of a split

  /** Both halves written over the entry `room` at `at`. */
  function Patched(typed: bool, block: seq<byte>, at: nat, room: Entry, e: Entry): (r: seq<byte>)
    requires at + EntrySize(|room.name|) + 8 + |e.name| <= |block|
    ensures |r| == |block|
  {
    var b := Splice(block, at, Serialize(typed, Cut(room)));
    Splice(b, at + EntrySize(|room.name|), Serialize(typed, Filling(e, room)))
  }

  /** Nothing outside the old entry changes, and both halves are there. */
  lemma SpliceKeeps(d: seq<byte>, at: nat, bs: seq<byte>, lo: nat, hi: nat)
    requires at + |bs| <= |d| && lo <= hi <= |d| && (hi <= at || at + |bs| <= lo)
    ensures Splice(d, at, bs)[lo..hi] == d[lo..hi]
  {
  }

  lemma PatchedBytes(typed: bool, block: seq<byte>, at: nat, room: Entry, e: Entry)
    requires at + room.total <= |block| && HasRoom(room, EntrySize(|e.name|))
    ensures HasHalves(typed, block, Patched(typed, block, at, room, e), at, room, e)
  {
    hide Splice, Serialize;
    var mid, end := at + EntrySize(|room.name|), at + room.total;
    var s1, s2 := Serialize(typed, Cut(room)), Serialize(typed, Filling(e, room));
    var b1 := Splice(block, at, s1);
    var b := Splice(b1, mid, s2);
    SpliceParts(block, at, s1);
    SpliceParts(b1, mid, s2);
    SpliceKeeps(block, at, s1, 0, at);
    SpliceKeeps(b1, mid, s2, 0, at);
    SpliceKeeps(b1, mid, s2, at, at + |s1|);
    SpliceKeeps(block, at, s1, end, |block|);
    SpliceKeeps(b1, mid, s2, end, |block|);
    assert b[..at] == b[0..at] && block[..at] == block[0..at];
    assert b[end..] == b[end..|block|] && block[end..] == block[end..|block|];
  }

  lemma Parsed(typed: bool, b: seq<byte>, at: nat, e: Entry)
    requires EntryOk(typed, e) && at + 8 + |e.name| <= |b| && b[at..at + 8 + |e.name|] == Serialize(typed, e)
    ensures Parse(typed, b[at..]) == Some(e.(name := Stored(typed, e.name)))
  {
    var n := 8 + |e.name|;
    assert b[at..] == Serialize(typed, e) + b[at + n..];
    ParseSerialize(typed, e, b[at + n..]);
  }

  lemma SameBefore(typed: bool, block: seq<byte>, b: seq<byte>, off: nat, n: nat, at: nat)
    requires off + n <= at <= |block| == |b| && b[..at] == block[..at]
    requires Parse(typed, block[off..]).Some? && 8 + |Parse(typed, block[off..]).value.name| <= n
    ensures Parse(typed, b[off..]) == Parse(typed, block[off..])
  {
    assert block[off..][..n] == block[..at][off..off + n] == b[..at][off..off + n] == b[off..][..n];
    ParseLocal(typed, block[off..], b[off..], n);
  }

  lemma SameAfter(typed: bool, block: seq<byte>, b: seq<byte>, at: nat, x: nat)
    requires at <= x && at <= |block| == |b| && b[at..] == block[at..]
    ensures Read(typed, b)(x) == Read(typed, block)(x)
  {
    if x <= |block| {
      assert b[x..] == b[at..][x - at..] == block[at..][x - at..] == block[x..];
    }
  }

  lemma {:induction false} OffsetBefore(es: seq<Entry>, j: nat, k: nat)
    requires j < k <= |es|
    ensures Offset(es, j) + es[j].total <= Offset(es, k)
  {
    if j < k - 1 {
      OffsetBefore(es, j, k - 1);
    }
  }

  /** `b` is `block` with the two halves of a split in place of the entry `room` at `at`. */
  ghost predicate HasHalves(typed: bool, block: seq<byte>, b: seq<byte>, at: nat, room: Entry, e: Entry) {
    var mid := at + EntrySize(|room.name|);
    && |b| == |block| && at + room.total <= |block| && mid + 8 + |e.name| <= |block|
    && b[..at] == block[..at] && b[at + room.total..] == block[at + room.total..]
    && b[at..at + 8 + |room.name|] == Serialize(typed, Cut(room))
    && b[mid..mid + 8 + |e.name|] == Serialize(typed, Filling(e, room))
  }

  ghost predicate ReadsHalves(read: Reader, at: nat, room: Entry, e: Entry) {
    read(at) == Some(Cut(room)) && read(at + EntrySize(|room.name|)) == Some(Filling(e, room))
  }

  lemma HalvesRead(typed: bool, block: seq<byte>, b: seq<byte>, at: nat, room: Entry, e: Entry)
    requires HasHalves(typed, block, b, at, room, e) && HasRoom(room, EntrySize(|e.name|))
    requires EntryOk(typed, room) && (typed ==> |room.name| <= 255) && EntryOk(typed, Filling(e, room))
    ensures ReadsHalves(Read(typed, b), at, room, e.(name := Stored(typed, e.name)))
  {
    hide Parse, Serialize;
    assert Stored(typed, room.name) == room.name;
    Parsed(typed, b, at, Cut(room));
    Parsed(typed, b, at + EntrySize(|room.name|), Filling(e, room));
  }

  lemma BeforeRead(typed: bool, block: seq<byte>, b: seq<byte>, es: seq<Entry>, k: nat, j: nat)
    requires BlockTiles(typed, block, es) && j < k < |es| && |b| == |block|
    requires Offset(es, k) <= |block| && b[..Offset(es, k)] == block[..Offset(es, k)]
    ensures Read(typed, b)(Offset(es, j)) == Read(typed, block)(Offset(es, j))
  {
    TileAt(Read(typed, block), |block|, es, j);
    OffsetBefore(es, j, k);
    SameBefore(typed, block, b, Offset(es, j), es[j].total, Offset(es, k));
  }

  lemma BeforeReads(typed: bool, block: seq<byte>, b: seq<byte>, es: seq<Entry>, k: nat)
    requires BlockTiles(typed, block, es) && k < |es| && |b| == |block|
    requires Offset(es, k) <= |block| && b[..Offset(es, k)] == block[..Offset(es, k)]
    ensures forall j :: 0 <= j < k ==> Read(typed, b)(Offset(es, j)) == Read(typed, block)(Offset(es, j))
  {
    forall j | 0 <= j < k ensures Read(typed, b)(Offset(es, j)) == Read(typed, block)(Offset(es, j)) {
      BeforeRead(typed, block, b, es, k, j);
    }
  }

  lemma AfterReads(typed: bool, block: seq<byte>, b: seq<byte>, at: nat)
    requires at <= |block| == |b| && b[at..] == block[at..]
    ensures forall x: nat :: at <= x ==> Read(typed, b)(x) == Read(typed, block)(x)
  {
    forall x: nat | at <= x ensures Read(typed, b)(x) == Read(typed, block)(x) {
      SameAfter(typed, block, b, at, x);
    }
  }

  lemma TileOk(typed: bool, block: seq<byte>, es: seq<Entry>, k: nat)
    requires BlockTiles(typed, block, es) && k < |es|
    ensures EntryOk(typed, es[k]) && (typed ==> |es[k].name| <= 255)
  {
    TileAt(Read(typed, block), |block|, es, k);
    ParsedOk(typed, block[Offset(es, k)..]);
  }

  ghost predicate SameAround(read: Reader, read': Reader, es: seq<Entry>, k: nat)
    requires k < |es|
  {
    && (forall x: nat :: Offset(es, k) + es[k].total <= x ==> read'(x) == read(x))
    && (forall j :: 0 <= j < k ==> read'(Offset(es, j)) == read(Offset(es, j)))
  }

  lemma AroundHalves(typed: bool, block: seq<byte>, b: seq<byte>, es: seq<Entry>, k: nat, e: Entry)
    requires BlockTiles(typed, block, es) && k < |es| && HasHalves(typed, block, b, Offset(es, k), es[k], e)
    ensures SameAround(Read(typed, block), Read(typed, b), es, k)
  {
    AfterReads(typed, block, b, Offset(es, k) + es[k].total);
    BeforeReads(typed, block, b, es, k);
  }

  lemma HalvesReads(typed: bool, block: seq<byte>, b: seq<byte>, es: seq<Entry>, k: nat, e: Entry)
    requires BlockTiles(typed, block, es) && k < |es| && HasRoom(es[k], EntrySize(|e.name|))
    requires HasHalves(typed, block, b, Offset(es, k), es[k], e) && EntryOk(typed, Filling(e, es[k]))
    ensures SplitReads(Read(typed, block), Read(typed, b), 0, es, k, e.(name := Stored(typed, e.name)))
  {
    TileOk(typed, block, es, k);
    HalvesRead(typed, block, b, Offset(es, k), es[k], e);
    AroundHalves(typed, block, b, es, k, e);
    Assemble(Read(typed, block), Read(typed, b), es, k, e.(name := Stored(typed, e.name)));
  }

  lemma Assemble(read: Reader, read': Reader, es: seq<Entry>, k: nat, e: Entry)
    requires k < |es| && SameAround(read, read', es, k) && ReadsHalves(read', Offset(es, k), es[k], e)
    ensures SplitReads(read, read', 0, es, k, e)
  {
  }

  /** Splitting entry `k` in any block that holds the halves keeps the tiling. */
  lemma HalvesTile(typed: bool, block: seq<byte>, b: seq<byte>, es: seq<Entry>, k: nat, e: Entry)
    requires BlockTiles(typed, block, es) && k < |es| && HasRoom(es[k], EntrySize(|e.name|))
    requires HasHalves(typed, block, b, Offset(es, k), es[k], e) && EntryOk(typed, Filling(e, es[k]))
    ensures BlockTiles(typed, b, SplitAt(es, k, e.(name := Stored(typed, e.name))))
  {
    StoredRoom(typed, es[k], e.name);
    HalvesReads(typed, block, b, es, k, e);
    SplitTiles(Read(typed, block), Read(typed, b), |block|, 0, es, k, e.(name := Stored(typed, e.name)));
  }

  lemma StoredRoom(typed: bool, room: Entry, name: seq<byte>)
    requires HasRoom(room, EntrySize(|name|))
    ensures HasRoom(room, EntrySize(|Stored(typed, name)|))
  {
  }

  /** One addition to a block: the entries still tile it, one of them split in two. */
  lemma AddKeepsTiling(typed: bool, block: seq<byte>, es: seq<Entry>, k: nat, e: Entry)
    requires BlockTiles(typed, block, es) && k < |es| && HasRoom(es[k], EntrySize(|e.name|))
    requires EntryOk(typed, Filling(e, es[k])) && Offset(es, k) + es[k].total <= |block|
    ensures BlockTiles(typed, Patched(typed, block, Offset(es, k), es[k], e), SplitAt(es, k, e.(name := Stored(typed, e.name))))
  {
    PatchedBytes(typed, block, Offset(es, k), es[k], e);
    HalvesTile(typed, block, Patched(typed, block, Offset(es, k), es[k], e), es, k, e);
  }

  // ------------------------------------------------------------- what the loops see

  /** The loops stop 8 bytes before the end of a block, so a last entry of only a header is not seen. */
  function Listed(es: seq<Entry>): (r: seq<Entry>)
    ensures |es| - 1 <= |r| <= |es| && r == es[..|r|]
  {
    if es != [] && es[|es| - 1].total == 8 then es[..|es| - 1] else es
  }

  lemma ListedSplitLast(es: seq<Entry>, k: nat, e: Entry)
    requires k == |es| - 1 && k < |Listed(es)|
    ensures Listed(SplitAt(es, k, e)) == if Filling(e, es[k]).total == 8 then es[..k] + [Cut(es[k])] else SplitAt(es, k, e)
  {
    var out := SplitAt(es, k, e);
    assert out == es[..k] + [Cut(es[k])] + [Filling(e, es[k])];
  }

  lemma ListedSplitInner(es: seq<Entry>, k: nat, e: Entry)
    requires k < |es| - 1
    ensures Listed(SplitAt(es, k, e)) == SplitAt(Listed(es), k, e)
  {
    var out, n := SplitAt(es, k, e), |es| - 1;
    assert out[|out| - 1] == es[n];
    if es[n].total == 8 {
      assert Listed(es) == es[..n];
      assert out[..|out| - 1] == SplitAt(es[..n], k, e);
    }
  }

  /** The new entry shows up right after the split one, unless it is an empty name in the last 8 bytes. */
  lemma ListedSplit(es: seq<Entry>, k: nat, e: Entry)
    requires k < |Listed(es)|
    ensures Listed(SplitAt(es, k, e)) ==
      if Unseen(es, k, e) then Listed(es)[k := Cut(es[k])] else SplitAt(Listed(es), k, e)
  {
    hide SplitAt;
    if k == |es| - 1 {
      ListedSplitLast(es, k, e);
      assert Listed(es) == es;
    } else {
      ListedSplitInner(es, k, e);
    }
  }

  /** The new entry is a bare header at the end of its block, which the loops do not see. */
  predicate Unseen(es: seq<Entry>, k: nat, e: Entry)
    requires k < |es|
  {
    k == |es| - 1 && Filling(e, es[k]).total == 8
  }

  lemma UnseenIsEmpty(es: seq<Entry>, k: nat, e: Entry, n: nat)
    requires k < |es| && Unseen(es, k, e) && HasRoom(es[k], EntrySize(n))
    ensures n == 0
  {
  }

  /** Where the walk over a block stands. */
  ghost predicate WalkAt(typed: bool, block: seq<byte>, es: seq<Entry>, k: nat, offset: nat) {
    BlockTiles(typed, block, es) && k <= |es| && offset == Offset(es, k)
  }

  lemma WalkStep(typed: bool, block: seq<byte>, es: seq<Entry>, k: nat, offset: nat)
    requires WalkAt(typed, block, es, k, offset) && offset + 8 < |block|
    ensures k < |Listed(es)| && Parse(typed, block[offset..]) == Some(es[k]) && es[k].total >= 8
    ensures offset + es[k].total <= |block| && WalkAt(typed, block, es, k + 1, offset + es[k].total)
  {
    TilesFrom(Read(typed, block), |block|, 0, es, k);
    assert k < |es|;
    TileAt(Read(typed, block), |block|, es, k);
    if k == |es| - 1 {
      TilesFrom(Read(typed, block), |block|, 0, es, k + 1);
    }
  }

  lemma WalkEnd(typed: bool, block: seq<byte>, es: seq<Entry>, k: nat, offset: nat)
    requires WalkAt(typed, block, es, k, offset) && offset + 8 >= |block| && k <= |Listed(es)|
    ensures k == |Listed(es)|
  {
    TilesFrom(Read(typed, block), |block|, 0, es, k);
    if k < |es| {
      TileAt(Read(typed, block), |block|, es, k);
      TilesFrom(Read(typed, block), |block|, 0, es, k + 1);
      if k + 1 < |es| {
        TileAt(Read(typed, block), |block|, es, k + 1);
      }
    }
  }

  method ListBlock(typed: bool, block: seq<byte>, ghost es: seq<Entry>) returns (out: seq<Entry>)
    requires BlockTiles(typed, block, es) && |block| >= 8
    ensures out == Listed(es)
  {
    out := [];
    var offset := 0;
    while offset < |block| - 8
      invariant WalkAt(typed, block, es, |out|, offset) && |out| <= |Listed(es)| && out == es[..|out|]
      decreases |block| - offset
    {
      WalkStep(typed, block, es, |out|, offset);
      var entry := Parse(typed, block[offset..]).value;
      offset := offset + entry.total;
      out := out + [entry];
    }
    WalkEnd(typed, block, es, |out|, offset);
  }

  method PatchBlock(typed: bool, a: array<byte>, at: nat, room: Entry, e: Entry)
    requires at + room.total <= a.Length && HasRoom(room, EntrySize(|e.name|))
    modifies a
    ensures a[..] == Patched(typed, old(a[..]), at, room, e)
  {
    CopyInto(a, at, Serialize(typed, Cut(room)));
    CopyInto(a, at + EntrySize(|room.name|), Serialize(typed, Filling(e, room)));
  }

  /** Puts the new entry into the first seen entry with room for it, in place. */
  method AddToBlock(typed: bool, a: array<byte>, e: Entry, ghost es: seq<Entry>) returns (found: bool, ghost k: nat)
    requires BlockTiles(typed, a[..], es) && a.Length >= 8 && EntryOk(typed, e)
    modifies a
    ensures !found ==> a[..] == old(a[..]) && forall j :: 0 <= j < |Listed(es)| ==> !HasRoom(es[j], EntrySize(|e.name|))
    ensures found ==> k < |Listed(es)| && HasRoom(es[k], EntrySize(|e.name|))
    ensures found ==> forall j :: 0 <= j < k ==> !HasRoom(es[j], EntrySize(|e.name|))
    ensures found ==> BlockTiles(typed, a[..], SplitAt(es, k, e.(name := Stored(typed, e.name))))
  {
    var offset := 0;
    k := 0;
    while offset < a.Length - 8
      invariant WalkAt(typed, a[..], es, k, offset) && k <= |Listed(es)| && a[..] == old(a[..])
      invariant forall j :: 0 <= j < k ==> !HasRoom(es[j], EntrySize(|e.name|))
      decreases a.Length - offset
    {
      WalkStep(typed, a[..], es, k, offset);
      var entry := Parse(typed, a[offset..]).value;
      if HasRoom(entry, EntrySize(|e.name|)) {
        assert a[offset..] == a[..][offset..];
        ParsedOk(typed, a[..][offset..]);
        AddKeepsTiling(typed, a[..], es, k, e);
        PatchBlock(typed, a, offset, entry, e);
        return true, k;
      }
      assert a[offset..] == a[..][offset..];
      offset := offset + entry.total;
      k := k + 1;
    }
    WalkEnd(typed, a[..], es, k, offset);
    return false, 0;
  }

  // ------------------------------------------------------------- the directory

  type Name = seq<byte>

  function Names(es: seq<Entry>): (r: seq<Name>)
    ensures |r| == |es| && forall i :: 0 <= i < |r| ==> r[i] == es[i].name
  {
    seq(|es|, i requires 0 <= i < |es| => es[i].name)
  }

  /** Everything the directory lists, block after block. */
  function ListedAll(tiles: seq<seq<Entry>>): seq<Entry> {
    if tiles == [] then [] else ListedAll(tiles[..|tiles| - 1]) + Listed(tiles[|tiles| - 1])
  }

  lemma ListedLast(tiles: seq<seq<Entry>>, es: seq<Entry>)
    ensures ListedAll(tiles + [es]) == ListedAll(tiles) + Listed(es)
  {
    assert (tiles + [es])[..|tiles|] == tiles;
  }

  lemma {:induction false} ListedAround(tiles: seq<seq<Entry>>, b: nat, es: seq<Entry>)
    returns (before: seq<Entry>, after: seq<Entry>)
    requires b < |tiles|
    ensures before == ListedAll(tiles[..b])
    ensures ListedAll(tiles) == before + Listed(tiles[b]) + after
    ensures ListedAll(tiles[b := es]) == before + Listed(es) + after
    decreases tiles
  {
    hide ListedAll, Listed;
    var n := |tiles| - 1;
    var rest, last := tiles[..n], tiles[n];
    assert tiles == rest + [last];
    ListedLast(rest, last);
    if b == n {
      before, after := ListedAll(rest), [];
      ListedLast(rest, es);
      assert tiles[b := es] == rest + [es];
    } else {
      before, after := ListedAround(rest, b, es);
      assert rest[..b] == tiles[..b];
      ListedLast(rest[b := es], last);
      assert tiles[b := es] == rest[b := es] + [last];
      after := after + Listed(last);
    }
  }

  lemma NoDupInsert(x: seq<Name>, name: Name, y: seq<Name>)
    requires NoDup(x + y) && name !in x + y
    ensures NoDup(x + [name] + y)
  {
    var all := x + [name] + y;
    forall i, j | 0 <= i < j < |all| ensures all[i] != all[j] {
      var i', j' := if i > |x| then i - 1 else i, if j > |x| then j - 1 else j;
      if i != |x| && j != |x| {
        assert all[i] == (x + y)[i'] && all[j] == (x + y)[j'];
      } else if i == |x| {
        assert all[j] == (x + y)[j'];
      } else {
        assert all[i] == (x + y)[i];
      }
    }
  }

  lemma NoDupRemove(x: seq<Name>, name: Name, y: seq<Name>)
    requires NoDup(x + [name] + y)
    ensures NoDup(x + y) && name !in x + y
  {
    var all, rest := x + [name] + y, x + y;
    assert all[|x|] == name;
    forall i | 0 <= i < |rest| ensures rest[i] == all[if i < |x| then i else i + 1] {
    }
  }

  lemma SplitNames(es: seq<Entry>, k: nat, e: Entry)
    requires k < |es|
    ensures Names(SplitAt(es, k, e)) == Names(es)[..k + 1] + [e.name] + Names(es)[k + 1..]
  {
  }

  /** The place in the whole listing of entry `k` of block `b`. */
  function Place(tiles: seq<seq<Entry>>, b: nat, k: nat): nat
    requires b <= |tiles|
  {
    |ListedAll(tiles[..b])| + k
  }

  function Around(before: seq<Entry>, mid: seq<Entry>, after: seq<Entry>): seq<Entry> { before + mid + after }

  lemma SplitWithin(before: seq<Entry>, mid: seq<Entry>, after: seq<Entry>, k: nat, e: Entry)
    requires k < |mid|
    ensures var i, all := |before| + k, Around(before, mid, after);
      && all[i] == mid[k]
      && Around(before, SplitAt(mid, k, e), after) == SplitAt(all, i, e)
      && Around(before, mid[k := Cut(mid[k])], after) == all[i := Cut(mid[k])]
  {
  }

  /** The listing after a split: the new entry directly after the one that made room. */
  lemma ListedAfter(tiles: seq<seq<Entry>>, b: nat, k: nat, e: Entry)
    requires b < |tiles| && k < |Listed(tiles[b])|
    ensures var i, all := Place(tiles, b, k), ListedAll(tiles);
      && i < |all| && all[i] == tiles[b][k]
      && ListedAll(tiles[b := SplitAt(tiles[b], k, e)]) ==
           if Unseen(tiles[b], k, e) then all[i := Cut(all[i])] else SplitAt(all, i, e)
  {
    hide ListedAll, Listed, SplitAt, Unseen;
    var es := tiles[b];
    var before, after := ListedAround(tiles, b, SplitAt(es, k, e));
    ListedSplit(es, k, e);
    SplitWithin(before, Listed(es), after, k, e);
  }

  /** The listed names are distinct after an addition exactly if they were and the stored name is a new one. */
  lemma AddDistinct(all: seq<Entry>, i: nat, e: Entry)
    requires i < |all|
    ensures NoDup(Names(SplitAt(all, i, e))) <==> NoDup(Names(all)) && e.name !in Names(all)
    ensures |SplitAt(all, i, e)| == |all| + 1 && SplitAt(all, i, e)[i + 1].name == e.name
    ensures Names(all[i := Cut(all[i])]) == Names(all)
  {
    var names := Names(all);
    var x, y := names[..i + 1], names[i + 1..];
    SplitNames(all, i, e);
    assert x + y == names;
    if NoDup(names) && e.name !in names {
      NoDupInsert(x, e.name, y);
    }
    if NoDup(x + [e.name] + y) {
      NoDupRemove(x, e.name, y);
    }
  }

  /** No entry the loops see leaves room for `n` more bytes. */
  ghost predicate NoRoom(es: seq<Entry>, n: nat) {
    forall j :: 0 <= j < |Listed(es)| ==> !HasRoom(es[j], n)
  }

  /** Entry `k` of block `b` is the first one with room for `n` more bytes. */
  ghost predicate FirstFit(tiles: seq<seq<Entry>>, b: nat, k: nat, n: nat) {
    && b < |tiles| && k < |Listed(tiles[b])| && HasRoom(tiles[b][k], n)
    && (forall j :: 0 <= j < k ==> !HasRoom(tiles[b][j], n))
    && (forall i :: 0 <= i < b ==> NoRoom(tiles[i], n))
  }

  /** What the directory lists after entry `k` of block `b` made room for `e`. */
  ghost predicate Lists(tiles: seq<seq<Entry>>, tiles': seq<seq<Entry>>, b: nat, k: nat, e: Entry) {
    && b < |tiles| && k < |tiles[b]| && Place(tiles, b, k) < |ListedAll(tiles)|
    && ListedAll(tiles)[Place(tiles, b, k)] == tiles[b][k]
    && ListedAll(tiles') ==
         if Unseen(tiles[b], k, e) then ListedAll(tiles)[Place(tiles, b, k) := Cut(tiles[b][k])]
         else SplitAt(ListedAll(tiles), Place(tiles, b, k), e)
  }

  ghost predicate AllNew(tiles: seq<seq<Entry>>, name: Name) {
    NoDup(Names(ListedAll(tiles))) && name !in Names(ListedAll(tiles))
  }

  /** `name` is what was asked for, and `e.name` what is stored of it. */
  lemma AddedNames(tiles: seq<seq<Entry>>, b: nat, k: nat, e: Entry, name: Name)
    requires FirstFit(tiles, b, k, EntrySize(|name|)) && name !in Names(ListedAll(tiles)) && (name == [] ==> e.name == [])
    ensures var tiles' := tiles[b := SplitAt(tiles[b], k, e)];
      && Lists(tiles, tiles', b, k, e)
      && (NoDup(Names(ListedAll(tiles'))) <==> AllNew(tiles, e.name))
      && (name != [] ==> Place(tiles, b, k) + 1 < |ListedAll(tiles')| && ListedAll(tiles')[Place(tiles, b, k) + 1].name == e.name)
  {
    hide ListedAll, Listed, SplitAt, NoDup, Place;
    ListedAfter(tiles, b, k, e);
    AddDistinct(ListedAll(tiles), Place(tiles, b, k), e);
    if Unseen(tiles[b], k, e) {
      UnseenIsEmpty(tiles[b], k, e, |name|);
    }
  }

  datatype Outcome = EntryExists | Added | Full | Overflow

  /** The direct blocks of a directory.  Indirect blocks are not implemented: a full directory ends in Full. */
  class Directory {
    const typed: bool
    var blocks: seq<seq<byte>>
    ghost var tiles: seq<seq<Entry>>

    ghost predicate Valid()
      reads this
    {
      && |tiles| == |blocks|
      && forall i :: 0 <= i < |blocks| ==> |blocks[i]| >= 8 && BlockTiles(typed, blocks[i], tiles[i])
    }

    constructor (haveType: bool, contents: seq<seq<byte>>, ghost entries: seq<seq<Entry>>)
      requires |entries| == |contents|
      requires forall i :: 0 <= i < |contents| ==> |contents[i]| >= 8 && BlockTiles(haveType, contents[i], entries[i])
      ensures Valid() && typed == haveType && blocks == contents && tiles == entries
    {
      typed, blocks, tiles := haveType, contents, entries;
    }

    method ListDir() returns (out: seq<Entry>)
      requires Valid()
      ensures out == ListedAll(tiles)
    {
      out := [];
      for i := 0 to |blocks|
        invariant out == ListedAll(tiles[..i])
      {
        var es := ListBlock(typed, blocks[i], tiles[i]);
        assert tiles[..i + 1][..i] == tiles[..i];
        out := out + es;
      }
      assert tiles[..|blocks|] == tiles;
    }

    method HasName(name: Name) returns (r: bool)
      requires Valid()
      ensures r <==> name in Names(ListedAll(tiles))
    {
      var all := ListDir();
      var i := 0;
      while i < |all| && all[i].name != name
        invariant i <= |all| && forall j :: 0 <= j < i ==> all[j].name != name
      {
        i := i + 1;
      }
      assert i < |all| ==> Names(all)[i] == name;
      return i < |all|;
    }

    /** Goes through the blocks until one takes the entry. */
    method AddToFirst(e: Entry) returns (found: bool, ghost b: nat, ghost k: nat)
      requires Valid() && EntryOk(typed, e)
      modifies this
      ensures Valid()
      ensures !found ==> blocks == old(blocks) && tiles == old(tiles)
      ensures !found ==> forall i :: 0 <= i < |tiles| ==> NoRoom(tiles[i], EntrySize(|e.name|))
      ensures found ==> FirstFit(old(tiles), b, k, EntrySize(|e.name|))
      ensures found ==> tiles == old(tiles)[b := SplitAt(old(tiles)[b], k, e.(name := Stored(typed, e.name)))]
    {
      hide BlockTiles, SplitAt;
      b, k := 0, 0;
      for i := 0 to |blocks|
        invariant Valid() && blocks == old(blocks) && tiles == old(tiles)
        invariant forall x :: 0 <= x < i ==> NoRoom(tiles[x], EntrySize(|e.name|))
      {
        var taken, block, at := AddToCopy(typed, blocks[i], e, tiles[i]);
        if taken {
          b, k := i, at;
          blocks, tiles := blocks[i := block], tiles[i := SplitAt(tiles[i], at, e.(name := Stored(typed, e.name)))];
          return true, b, k;
        }
      }
      return false, 0, 0;
    }

    /** Adds an entry to the first seen slot that is big enough. */
    method AddEntry(name: Name, inode: nat, typ: nat) returns (o: Outcome, ghost b: nat, ghost k: nat)
      requires Valid() && 0 < inode < U32 && typ < 8 && |name| < U16
      modifies this
      ensures Valid()
      ensures o.EntryExists? <==> name in Names(ListedAll(old(tiles)))
      ensures o.Overflow? <==> name !in Names(ListedAll(old(tiles))) && |name| + 11 >= U16
      ensures !o.Added? ==> blocks == old(blocks) && tiles == old(tiles)
      ensures o.Full? ==> forall i :: 0 <= i < |tiles| ==> NoRoom(tiles[i], EntrySize(|name|))
      ensures o.Added? ==> FirstFit(old(tiles), b, k, EntrySize(|name|))
      ensures o.Added? ==> tiles == old(tiles)[b := SplitAt(old(tiles)[b], k, NewEntry(typed, name, inode, typ))]
      ensures o.Added? ==> Lists(old(tiles), tiles, b, k, NewEntry(typed, name, inode, typ))
      ensures o.Added? && name != [] ==>
        Place(old(tiles), b, k) + 1 < |ListedAll(tiles)| && ListedAll(tiles)[Place(old(tiles), b, k) + 1].name == Stored(typed, name)
      ensures o.Added? ==> (NoDup(Names(ListedAll(tiles))) <==> AllNew(old(tiles), Stored(typed, name)))
      ensures NoDup(Names(ListedAll(old(tiles)))) && (typed ==> |name| <= 255) ==> NoDup(Names(ListedAll(tiles)))
    {
      hide BlockTiles, SplitAt, ListedAll, Listed, NoRoom, NoDup, Names;
      b, k := 0, 0;
      var present := HasName(name);
      if present {
        return EntryExists, 0, 0;
      }
      if |name| + 11 >= U16 {
        return Overflow, 0, 0;
      }
      var found;
      found, b, k := AddToFirst(Entry(inode, 0, name, if typed then Some(typ) else None));
      if !found {
        return Full, b, k;
      }
      AddedNames(old(tiles), b, k, NewEntry(typed, name, inode, typ), name);
      assert (typed ==> |name| <= 255) ==> Stored(typed, name) == name;
      return Added, b, k;
    }
  }

  /** Reads the block into a buffer, edits it there and gives the buffer back. */
  method AddToCopy(typed: bool, block: seq<byte>, e: Entry, ghost es: seq<Entry>) returns (found: bool, block': seq<byte>, ghost k: nat)
    requires BlockTiles(typed, block, es) && |block| >= 8 && EntryOk(typed, e)
    ensures |block'| == |block|
    ensures !found ==> NoRoom(es, EntrySize(|e.name|))
    ensures found ==> k < |Listed(es)| && HasRoom(es[k], EntrySize(|e.name|))
    ensures found ==> forall j :: 0 <= j < k ==> !HasRoom(es[j], EntrySize(|e.name|))
    ensures found ==> BlockTiles(typed, block', SplitAt(es, k, e.(name := Stored(typed, e.name))))
  {
    var data := new byte[|block|](n requires 0 <= n < |block| => block[n]);
    assert data[..] == block;
    found, k := AddToBlock(typed, data, e, es);
    block' := data[..];
  }

  /** The entry as it will parse; its total is set where it is placed. */
  function NewEntry(typed: bool, name: Name, inode: nat, typ: nat): Entry {
    Entry(inode, 0, Stored(typed, name), if typed then Some(typ) else None)
  }

  // ------------------------------------------------------------- names of more than 255 bytes

  /** Some entry the loops see leaves room for `n` more bytes. */
  ghost predicate Room(tiles: seq<seq<Entry>>, n: nat) {
    exists i :: 0 <= i < |tiles| && !NoRoom(tiles[i], n)
  }

  lemma StillRoomHere(es: seq<Entry>, k: nat, e: Entry, j: nat, n: nat, m: nat)
    requires k <= j < |Listed(es)| && HasRoom(es[j], n + m) && EntrySize(|e.name|) <= n && !Unseen(es, k, e)
    ensures !NoRoom(SplitAt(es, k, e), m)
  {
    ListedSplit(es, k, e);
    var out := SplitAt(es, k, e);
    assert out[j + 1] == if j == k then Filling(e, es[k]) else es[j];
    assert j + 1 < |Listed(out)|;
  }

  /** Where there was room for two, there is room for the second after the first. */
  lemma StillRoom(tiles: seq<seq<Entry>>, b: nat, k: nat, e: Entry, n: nat, m: nat)
    requires FirstFit(tiles, b, k, n) && Room(tiles, n + m) && EntrySize(|e.name|) <= n && !Unseen(tiles[b], k, e)
    ensures Room(tiles[b := SplitAt(tiles[b], k, e)], m)
  {
    var i :| 0 <= i < |tiles| && !NoRoom(tiles[i], n + m);
    var j :| 0 <= j < |Listed(tiles[i])| && HasRoom(tiles[i][j], n + m);
    var after := tiles[b := SplitAt(tiles[b], k, e)];
    assert HasRoom(tiles[i][j], n);
    if i == b {
      StillRoomHere(tiles[b], k, e, j, n, m);
    } else {
      assert !NoRoom(after[i], m) by {
        assert HasRoom(tiles[i][j], m);
      }
    }
    assert !NoRoom(after[i], m);
  }

  lemma StillRoomAfter(tiles: seq<seq<Entry>>, b: nat, k: nat, e: Entry, n: nat, m: nat)
    requires n > 0 && FirstFit(tiles, b, k, EntrySize(n)) && Room(tiles, EntrySize(n) + m) && |e.name| <= n
    ensures Room(tiles[b := SplitAt(tiles[b], k, e)], m)
  {
    if Unseen(tiles[b], k, e) {
      UnseenIsEmpty(tiles[b], k, e, n);
    }
    StillRoom(tiles, b, k, e, EntrySize(n), m);
  }

  lemma RoomLess(tiles: seq<seq<Entry>>, n: nat, m: nat)
    requires Room(tiles, n + m)
    ensures Room(tiles, n)
  {
    var i :| 0 <= i < |tiles| && !NoRoom(tiles[i], n + m);
    var j :| 0 <= j < |Listed(tiles[i])| && HasRoom(tiles[i][j], n + m);
    assert HasRoom(tiles[i][j], n);
    assert !NoRoom(tiles[i], n);
  }

  lemma {:induction false} ListedFrom(tiles: seq<seq<Entry>>, x: Name) returns (b: nat, k: nat)
    requires x in Names(ListedAll(tiles))
    ensures b < |tiles| && k < |tiles[b]| && tiles[b][k].name == x
  {
    var n := |tiles| - 1;
    if x in Names(ListedAll(tiles[..n])) {
      b, k := ListedFrom(tiles[..n], x);
    } else {
      b := n;
      k :| 0 <= k < |Listed(tiles[n])| && Listed(tiles[n])[k].name == x;
    }
  }

  /** With types on disk no listed name has more than 255 bytes, so a longer one passes the duplicate test. */
  lemma LongNotListed(d: Directory, name: Name)
    requires d.Valid() && d.typed && |name| > 255
    ensures name !in Names(ListedAll(d.tiles))
  {
    if name in Names(ListedAll(d.tiles)) {
      var b, k := ListedFrom(d.tiles, name);
      TileOk(d.typed, d.blocks[b], d.tiles[b], k);
    }
  }

  /** With types on disk, two long names with the same stored bytes are both added where there is room,
  and the directory then lists a name twice. */
  method LongNamesCollide(d: Directory, a: Name, b: Name, inode: nat, typ: nat) returns (o1: Outcome, o2: Outcome)
    requires d.Valid() && d.typed && 0 < inode < U32 && typ < 8
    requires 255 < |a| < U16 - 11 && 255 < |b| < U16 - 11 && Stored(true, a) == Stored(true, b)
    requires Room(d.tiles, EntrySize(|a|) + EntrySize(|b|))
    modifies d
    ensures d.Valid() && o1 == Added && o2 == Added && !NoDup(Names(ListedAll(d.tiles)))
  {
    hide Listed, ListedAll, SplitAt, NoDup, NoRoom, Lists, Place, Stored, EntrySize, BlockTiles;
    ghost var n, m := EntrySize(|a|), EntrySize(|b|);
    ghost var x, i, before := 0, 0, d.tiles;
    LongNotListed(d, a);
    RoomLess(d.tiles, n, m);
    o1, x, i := d.AddEntry(a, inode, typ);
    StillRoomAfter(before, x, i, NewEntry(true, a, inode, typ), |a|, m);
    LongNotListed(d, b);
    ghost var place := Place(before, x, i) + 1;
    assert Names(ListedAll(d.tiles))[place] == Stored(true, a);
    o2, x, i := d.AddEntry(b, inode, typ);
  }

}
