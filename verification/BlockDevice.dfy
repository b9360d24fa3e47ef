/** Byte-addressed reads and writes over a device that only transfers whole sectors. */
module BlockDevice {
  import opened Basics
  import opened Bytes
  import opened Arith

  datatype Error = OutOfBounds

  // ------------------------------------------------------------- the flat byte array

  /** The bytes of a write that lie on a device of `size` bytes. */
  function Fitting(size: nat, at: nat, bs: seq<byte>): seq<byte> {
    if at + |bs| <= size then bs else if at <= size then bs[..size - at] else []
  }

  /** What a write leaves behind, whole or cut off at the end of the device. */
  function Written(d: seq<byte>, at: nat, bs: seq<byte>): (r: seq<byte>)
    ensures |r| == |d|
  {
    if Fitting(|d|, at, bs) == [] then d else Splice(d, at, Fitting(|d|, at, bs))
  }

  lemma SpliceNext(d: seq<byte>, at: nat, a: seq<byte>, b: seq<byte>)
    requires at + |a| + |b| <= |d|
    ensures Splice(Splice(d, at, a), at + |a|, b) == Splice(d, at, a + b)
  {
  }

  lemma FittingNext(size: nat, at: nat, a: seq<byte>, b: seq<byte>)
    requires at + |a| <= size
    ensures Fitting(size, at, a + b) == a + Fitting(size, at + |a|, b)
  {
  }

  lemma SpliceNothing(d: seq<byte>, at: nat)
    requires at <= |d|
    ensures Splice(d, at, []) == d
  {
  }

  /** Two adjacent writes are one, also where the device ends inside either. */
  lemma WrittenNext(d: seq<byte>, at: nat, a: seq<byte>, b: seq<byte>)
    ensures Written(Written(d, at, a), at + |a|, b) == Written(d, at, a + b)
  {
    hide Splice;
    if at + |a| <= |d| {
      FittingNext(|d|, at, a, b);
      SpliceNext(d, at, a, Fitting(|d|, at + |a|, b));
      SpliceNothing(d, at);
      assert a + [] == a;
    } else {
      assert Fitting(|d|, at, a + b) == Fitting(|d|, at, a);
    }
  }

  /** A write that reached the end of the device is not changed by what would follow it. */
  lemma WrittenCut(d: seq<byte>, at: nat, a: seq<byte>, b: seq<byte>)
    requires at + |a| >= |d|
    ensures Written(d, at, a + b) == Written(d, at, a)
  {
    assert Fitting(|d|, at, a + b) == Fitting(|d|, at, a);
  }

  lemma WholeStep(d: seq<byte>, at: nat, bs: seq<byte>, done: nat, n: nat)
    requires done + n <= |bs|
    ensures Written(Written(d, at, bs[..done]), at + done, bs[done..done + n]) == Written(d, at, bs[..done + n])
  {
    hide Written;
    WrittenNext(d, at, bs[..done], bs[done..done + n]);
    assert bs[..done] + bs[done..done + n] == bs[..done + n];
  }

  lemma WholeCut(d: seq<byte>, at: nat, bs: seq<byte>, done: nat)
    requires done <= |bs| && at + done >= |d|
    ensures Written(d, at, bs[..done]) == Written(d, at, bs)
  {
    hide Written;
    WrittenCut(d, at, bs[..done], bs[done..]);
    assert bs[..done] + bs[done..] == bs;
  }

  lemma Window(d: seq<byte>, a: nat, b: nat, k: nat, n: nat)
    requires a + k + n <= b <= |d|
    ensures d[a..b][k..k + n] == d[a + k..a + k + n]
  {
    var x, y := d[a..b][k..k + n], d[a + k..a + k + n];
    forall i | 0 <= i < n ensures x[i] == y[i] {
      assert d[a..b][k + i] == d[a + (k + i)];
    }
  }

  lemma Joined(d: seq<byte>, a: nat, b: nat, c: nat)
    requires a <= b <= c <= |d|
    ensures d[a..b] + d[b..c] == d[a..c]
  {
    var x, y := d[a..b] + d[b..c], d[a..c];
    forall i | 0 <= i < c - a ensures x[i] == y[i] {
      assert y[i] == d[a + i];
    }
  }

  /** What a round takes out of the sectors `from` to `to` it staged continues what was read before. */
  lemma BounceCopy(d: seq<byte>, offset: nat, position: nat, from: nat, to: nat, take: nat)
    requires offset <= position && from <= position && position + take <= to <= |d|
    ensures d[offset..position] + d[from..to][position - from..position - from + take] == d[offset..position + take]
  {
    Window(d, from, to, position - from, take);
    Joined(d, offset, position, position + take);
  }

  lemma WrittenFits(d: seq<byte>, at: nat, bs: seq<byte>)
    requires at + |bs| <= |d|
    ensures Written(d, at, bs) == Splice(d, at, bs)
  {
  }

  lemma WrittenNothing(d: seq<byte>, at: nat)
    ensures Written(d, at, []) == d
  {
  }

  lemma WrittenOff(d: seq<byte>, at: nat, bs: seq<byte>)
    requires |d| <= at
    ensures Written(d, at, bs) == d
  {
  }

  /** Writing a sector back with only its middle replaced is writing the middle. */
  lemma SplicePatched(d: seq<byte>, at: nat, n: nat, k: nat, bs: seq<byte>)
    requires at + n <= |d| && k + |bs| <= n
    ensures Splice(d, at, Splice(d[at..at + n], k, bs)) == Splice(d, at + k, bs)
  {
    hide Splice;
    var sector := d[at..at + n];
    var patched := Splice(sector, k, bs);
    var out, want := Splice(d, at, patched), Splice(d, at + k, bs);
    forall i | 0 <= i < |d| ensures out[i] == want[i] {
      SpliceAt(d, at, patched, i);
      SpliceAt(d, at + k, bs, i);
      if at <= i < at + n {
        SpliceAt(sector, k, bs, i - at);
      }
    }
  }

  lemma SpliceAt(d: seq<byte>, at: nat, bs: seq<byte>, i: nat)
    requires at + |bs| <= |d| && i < |d|
    ensures Splice(d, at, bs)[i] == if at <= i < at + |bs| then bs[i - at] else d[i]
  {
  }

  /** What was written reads back, and every other byte is as before. */
  lemma SpliceReads(d: seq<byte>, at: nat, bs: seq<byte>, from: nat, n: nat)
    requires at + |bs| <= |d| && from + n <= |d|
    ensures Splice(d, at, bs)[at..at + |bs|] == bs
    ensures from + n <= at || at + |bs| <= from ==> Splice(d, at, bs)[from..from + n] == d[from..from + n]
  {
    var out := Splice(d, at, bs);
    var mine, x, y := out[at..at + |bs|], out[from..from + n], d[from..from + n];
    forall i | 0 <= i < |bs| ensures mine[i] == bs[i] {
      assert out[at + i] == bs[i];
    }
    if from + n <= at || at + |bs| <= from {
      forall i | 0 <= i < n ensures x[i] == y[i] {
        assert out[from + i] == d[from + i];
      }
    }
  }

  // ------------------------------------------------------------- sectors

  class Device {
    const sectorSize: nat
    const sectors: nat
    var data: seq<byte>

    ghost predicate Valid()
      reads this
    {
      sectorSize > 0 && |data| == sectors * sectorSize
    }

    constructor (size: nat, count: nat, contents: seq<byte>)
      requires size > 0 && |contents| == count * size
      ensures Valid() && data == contents && sectorSize == size
    {
      sectorSize, sectors, data := size, count, contents;
    }

    lemma SectorIn(i: nat)
      requires Valid() && i < sectors
      ensures (i + 1) * sectorSize == i * sectorSize + sectorSize <= |data|
    {
      MulLe(i + 1, sectors, sectorSize);
    }

    method ReadSector(i: nat) returns (r: Result<seq<byte>, Error>)
      requires Valid()
      ensures i >= sectors ==> r == Err(OutOfBounds)
      ensures i < sectors ==> i * sectorSize + sectorSize <= |data| && r == Ok(data[i * sectorSize..i * sectorSize + sectorSize])
    {
      if i >= sectors {
        return Err(OutOfBounds);
      }
      SectorIn(i);
      return Ok(data[i * sectorSize..i * sectorSize + sectorSize]);
    }

    lemma SectorBounds(i: nat)
      requires Valid()
      ensures i < sectors ==> i * sectorSize + sectorSize <= |data|
      ensures i >= sectors ==> |data| <= i * sectorSize
    {
      if i < sectors {
        SectorIn(i);
      } else {
        MulLe(sectors, i, sectorSize);
      }
    }

    method WriteSector(i: nat, buf: seq<byte>) returns (r: Result<nat, Error>)
      requires Valid() && |buf| == sectorSize
      modifies this
      ensures Valid()
      ensures data == Written(old(data), i * sectorSize, buf)
      ensures r == if i < sectors then Ok(|buf|) else Err(OutOfBounds)
    {
      hide Splice, Written;
      SectorBounds(i);
      if i >= sectors {
        WrittenOff(data, i * sectorSize, buf);
        return Err(OutOfBounds);
      }
      WrittenFits(data, i * sectorSize, buf);
      data := Splice(data, i * sectorSize, buf);
      return Ok(|buf|);
    }

    /** Sectors `start` to `end`, one after the other. */
    method ReadSectors(start: nat, end: nat) returns (r: Result<seq<byte>, Error>)
      requires Valid() && start <= end
      ensures r.Ok? <==> end < sectors
      ensures r.Ok? ==> start * sectorSize <= (end + 1) * sectorSize <= |data| && r.value == data[start * sectorSize..(end + 1) * sectorSize]
    {
      var acc: seq<byte> := [];
      var i := start;
      while i <= end
        invariant start <= i <= end + 1 && (i > start ==> i <= sectors)
        invariant i * sectorSize == start * sectorSize + |acc|
        invariant i > start ==> i * sectorSize <= |data| && acc == data[start * sectorSize..i * sectorSize]
      {
        var sector := ReadSector(i);
        if sector.Err? {
          return Err(OutOfBounds);
        }
        SectorIn(i);
        acc := acc + sector.value;
        i := i + 1;
      }
      return Ok(acc);
    }

    /** Slices the flat array, or fails without a result when the range leaves the device. */
    method ReadAt(offset: nat, len: nat) returns (r: Result<seq<byte>, Error>)
      requires Valid()
      ensures r.Err? <==> len > 0 && offset + len > |data|
      ensures r.Ok? ==> |r.value| == len && (len > 0 ==> r.value == data[offset..offset + len])
    {
      if len == 0 {
        return Ok([]);
      }
      var start := offset / sectorSize;
      var end := (offset + len - 1) / sectorSize;
      EndSector(offset, len, start, end);
      if offset % sectorSize == 0 && len == sectorSize {
        OneSector(offset, start, end);
        r := ReadSector(start);
        return;
      }
      r := ReadSpanning(offset, len, start, end);
    }

    method ReadSpanning(offset: nat, len: nat, start: nat, end: nat) returns (r: Result<seq<byte>, Error>)
      requires Valid() && start <= end
      requires start * sectorSize <= offset < start * sectorSize + sectorSize
      requires end * sectorSize < offset + len <= end * sectorSize + sectorSize
      ensures r.Ok? <==> end < sectors
      ensures r.Ok? ==> offset + len <= |data| && r.value == data[offset..offset + len]
    {
      var relative := offset - start * sectorSize;
      var whole := ReadSectors(start, end);
      if whole.Err? {
        return Err(OutOfBounds);
      }
      MulNext(end, sectorSize);
      Window(data, start * sectorSize, (end + 1) * sectorSize, relative, len);
      return Ok(whole.value[relative..relative + len]);
    }

    lemma OneSector(offset: nat, start: nat, end: nat)
      requires Valid() && start == offset / sectorSize && offset % sectorSize == 0
      requires end == (offset + sectorSize - 1) / sectorSize
      ensures start == end && start * sectorSize == offset
    {
      assert offset == start * sectorSize;
      DivLess(offset + sectorSize - 1, sectorSize, start + 1);
      DivLess(offset + sectorSize - 1, sectorSize, start);
      MulNext(start, sectorSize);
    }

    lemma EndSector(offset: nat, len: nat, start: nat, end: nat)
      requires Valid() && len > 0 && start == offset / sectorSize && end == (offset + len - 1) / sectorSize
      ensures start <= end
      ensures start * sectorSize <= offset < start * sectorSize + sectorSize
      ensures end * sectorSize < offset + len <= end * sectorSize + sectorSize
      ensures offset + len <= |data| <==> end < sectors
    {
      DivLess(offset + len - 1, sectorSize, sectors);
      DivLess(offset + len - 1, sectorSize, start);
      assert (end + 1) * sectorSize == end * sectorSize + sectorSize;
    }

    /** Reads, patches and writes back part of one sector. */
    method PatchSector(i: nat, at: nat, bs: seq<byte>) returns (r: Result<nat, Error>)
      requires Valid() && at + |bs| <= sectorSize
      modifies this
      ensures Valid()
      ensures data == Written(old(data), i * sectorSize + at, bs)
      ensures r.Ok? <==> i < sectors
    {
      hide Splice, Written;
      SectorBounds(i);
      var sector := ReadSector(i);
      if sector.Err? {
        WrittenOff(data, i * sectorSize + at, bs);
        return Err(sector.error);
      }
      var patched := Splice(sector.value, at, bs);
      SplicePatched(data, i * sectorSize, sectorSize, at, bs);
      WrittenFits(data, i * sectorSize, patched);
      WrittenFits(data, i * sectorSize + at, bs);
      r := WriteSector(i, patched);
    }

    /** Splices the buffer into the flat array; past the end of the device the write is cut off and fails. */
    method WriteAt(offset: nat, buf: seq<byte>) returns (r: Result<nat, Error>)
      requires Valid()
      modifies this
      ensures Valid()
      ensures data == Written(old(data), offset, buf)
      ensures r == if buf == [] || offset + |buf| <= |data| then Ok(|buf|) else Err(OutOfBounds)
    {
      hide Splice, Written;
      if buf == [] {
        WrittenNothing(data, offset);
        return Ok(0);
      }
      var start := offset / sectorSize;
      var end := (offset + |buf| - 1) / sectorSize;
      EndSector(offset, |buf|, start, end);
      if offset % sectorSize == 0 && |buf| == sectorSize {
        OneSector(offset, start, end);
        r := WriteSector(start, buf);
        return;
      }
      if start == end {
        var patched := PatchSector(start, offset - start * sectorSize, buf);
        if patched.Err? {
          return Err(OutOfBounds);
        }
        return Ok(|buf|);
      }
      r := WriteSpanning(offset, buf, start, end);
    }

    /** A write over at least two sectors: head, whole sectors, tail. */
    method WriteSpanning(offset: nat, buf: seq<byte>, start: nat, end: nat) returns (r: Result<nat, Error>)
      requires Valid() && start < end
      requires start * sectorSize <= offset < start * sectorSize + sectorSize
      requires end * sectorSize < offset + |buf| <= end * sectorSize + sectorSize
      modifies this
      ensures Valid()
      ensures data == Written(old(data), offset, buf)
      ensures r == if offset + |buf| <= |data| then Ok(|buf|) else Err(OutOfBounds)
    {
      hide Splice, Written;
      var startOffset := offset - start * sectorSize;
      var endOffset := offset + |buf| - end * sectorSize;
      var headLen := sectorSize - startOffset;
      var tailStart := |buf| - endOffset;
      MulLe(start + 1, end, sectorSize);
      MulNext(start, sectorSize);
      assert headLen <= tailStart;
      var head := WriteHead(offset, buf[..headLen], start);
      if head.Err? {
        WholeCut(old(data), offset, buf, headLen);
        return Err(OutOfBounds);
      }
      WholeStep(old(data), offset, buf, headLen, tailStart - headLen);
      var whole := WriteWhole(start + 1, end, buf[headLen..tailStart]);
      if whole.Err? {
        WholeCut(old(data), offset, buf, tailStart);
        return Err(OutOfBounds);
      }
      WholeStep(old(data), offset, buf, tailStart, endOffset);
      assert buf[tailStart..tailStart + endOffset] == buf[tailStart..] && buf[..tailStart + endOffset] == buf;
      var tail := WriteTail(end, buf[tailStart..]);
      if tail.Err? {
        return Err(OutOfBounds);
      }
      return Ok(|buf|);
    }

    /** The rest of the first sector. */
    method WriteHead(offset: nat, bs: seq<byte>, start: nat) returns (r: Result<nat, Error>)
      requires Valid() && start * sectorSize <= offset && offset + |bs| == start * sectorSize + sectorSize
      requires bs != []
      modifies this
      ensures Valid()
      ensures data == Written(old(data), offset, bs)
      ensures r.Ok? <==> offset + |bs| <= |data|
      ensures r.Ok? ==> start < sectors
    {
      hide Splice, Written;
      SectorBounds(start);
      if offset == start * sectorSize {
        r := WriteSector(start, bs);
      } else {
        r := PatchSector(start, offset - start * sectorSize, bs);
      }
    }

    /** The sectors the write covers from end to end. */
    method WriteWhole(first: nat, end: nat, bs: seq<byte>) returns (r: Result<nat, Error>)
      requires Valid() && first <= end && first <= sectors
      requires first * sectorSize + |bs| == end * sectorSize
      modifies this
      ensures Valid()
      ensures data == Written(old(data), first * sectorSize, bs)
      ensures r.Ok? <==> first * sectorSize + |bs| <= |data|
    {
      hide Splice, Written;
      ghost var at := first * sectorSize;
      var i, done := first, 0;
      MulLe(first, sectors, sectorSize);
      WrittenNothing(data, at);
      while i < end
        invariant Valid() && first <= i <= end && i <= sectors
        invariant i * sectorSize == at + done <= |data| && done <= |bs|
        invariant data == Written(old(data), at, bs[..done])
      {
        MulLe(i + 1, end, sectorSize);
        MulNext(i, sectorSize);
        SectorBounds(i);
        WholeStep(old(data), at, bs, done, sectorSize);
        var written := WriteSector(i, bs[done..done + sectorSize]);
        if written.Err? {
          WholeCut(old(data), at, bs, done + sectorSize);
          return Err(OutOfBounds);
        }
        i, done := i + 1, done + sectorSize;
      }
      assert bs[..done] == bs;
      return Ok(|bs|);
    }

    /** The start of the last sector, or all of it. */
    method WriteTail(end: nat, bs: seq<byte>) returns (r: Result<nat, Error>)
      requires Valid() && 0 < |bs| <= sectorSize
      modifies this
      ensures Valid()
      ensures data == Written(old(data), end * sectorSize, bs)
      ensures r.Ok? <==> end * sectorSize + |bs| <= |data|
    {
      hide Splice, Written;
      SectorBounds(end);
      if |bs| == sectorSize {
        r := WriteSector(end, bs);
      } else {
        r := PatchSector(end, 0, bs);
      }
    }
  }

  // ------------------------------------------------------------- the virtio driver

  const SECTOR_SIZE := 512
  const BOUNCE_SECTORS := 128

  class VirtioDevice {
    const capacity: nat
    var data: seq<byte>

    ghost predicate Valid()
      reads this
    {
      |data| == capacity * SECTOR_SIZE
    }

    constructor (count: nat, contents: seq<byte>)
      requires |contents| == count * SECTOR_SIZE
      ensures Valid() && data == contents
    {
      capacity, data := count, contents;
    }

    method ReadBlocks(i: nat, n: nat) returns (r: Result<seq<byte>, Error>)
      requires Valid()
      ensures r.Ok? <==> i + n <= capacity
      ensures r.Ok? ==> r.value == data[i * SECTOR_SIZE..(i + n) * SECTOR_SIZE]
    {
      if i + n > capacity {
        return Err(OutOfBounds);
      }
      return Ok(data[i * SECTOR_SIZE..(i + n) * SECTOR_SIZE]);
    }

    /** One round of the bounce buffer: it makes progress, stays inside what was staged, and the
    device refuses it only if the read as a whole leaves the device. */
    lemma BounceRound(position: nat, remaining: nat, count: nat, take: nat)
      requires remaining > 0
      requires count == Min((position % SECTOR_SIZE + remaining + SECTOR_SIZE - 1) / SECTOR_SIZE, BOUNCE_SECTORS)
      requires take == Min(remaining, count * SECTOR_SIZE - position % SECTOR_SIZE)
      ensures 0 < take <= remaining
      ensures position + take <= (position / SECTOR_SIZE + count) * SECTOR_SIZE
      ensures position / SECTOR_SIZE + count > capacity ==> position + remaining > capacity * SECTOR_SIZE
    {
    }

    /** The bounce-buffer loop meets the contract of the generic read. */
    method ReadAt(offset: nat, len: nat) returns (r: Result<seq<byte>, Error>)
      requires Valid()
      ensures r.Err? <==> len > 0 && offset + len > |data|
      ensures r.Ok? ==> |r.value| == len && (len > 0 ==> r.value == data[offset..offset + len])
    {
      if len == 0 {
        return Ok([]);
      }
      var buf: seq<byte> := [];
      while |buf| < len
        invariant |buf| <= len
        invariant |buf| > 0 ==> offset + |buf| <= |data| && buf == data[offset..offset + |buf|]
        decreases len - |buf|
      {
        var position := offset + |buf|;
        var sector := position / SECTOR_SIZE;
        var intra := position % SECTOR_SIZE;
        var remaining := len - |buf|;
        var count := Min((intra + remaining + SECTOR_SIZE - 1) / SECTOR_SIZE, BOUNCE_SECTORS);
        var take := Min(remaining, count * SECTOR_SIZE - intra);
        BounceRound(position, remaining, count, take);
        var staging := ReadBlocks(sector, count);
        if staging.Err? {
          return Err(OutOfBounds);
        }
        BounceCopy(data, offset, position, sector * SECTOR_SIZE, (sector + count) * SECTOR_SIZE, take);
        buf := buf + staging.value[intra..intra + take];
      }
      return Ok(buf);
    }
  }
}
