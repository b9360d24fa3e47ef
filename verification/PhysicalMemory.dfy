/** The physical frame manager: sparse regions of frame states and a cached first free frame.

Addresses are counted in 4 KiB frames: region bases are 4 KiB aligned, and a larger page is
`per` frames (512 for 2 MiB, 262144 for 1 GiB) starting at a multiple of `per`.
*/
module PhysicalMemory {
  import opened Basics
  import opened Arith

  datatype FrameState = Unusable | Allocated | Free
  datatype Region = Region(base: nat, frames: seq<FrameState>)
  datatype Pos = Pos(region: nat, frame: nat)

  // ------------------------------------------------------------- first free frame

  predicate Before(r: nat, i: nat, p: Pos) {
    r < p.region || (r == p.region && i < p.frame)
  }

  /** No frame before `p` is free. */
  ghost predicate NoneFreeBefore(rs: seq<Region>, p: Pos) {
    forall r, i :: 0 <= r < |rs| && 0 <= i < |rs[r].frames| && Before(r, i, p) ==> rs[r].frames[i] != Free
  }

  ghost predicate IsFirstFree(rs: seq<Region>, ff: Option<Pos>) {
    match ff
    case None => NoneFreeBefore(rs, Pos(|rs|, 0))
    case Some(p) =>
      p.region < |rs| && p.frame < |rs[p.region].frames| && rs[p.region].frames[p.frame] == Free && NoneFreeBefore(rs, p)
  }

  /** There is only one first free frame. */
  lemma FirstFreeUnique(rs: seq<Region>, a: Option<Pos>, b: Option<Pos>)
    requires IsFirstFree(rs, a) && IsFirstFree(rs, b)
    ensures a == b
  {
  }

  // ------------------------------------------------------------- runs of free frames

  /** `count` free frames from `i`, aligned to pages of `per` frames. */
  ghost predicate RunIn(g: Region, i: nat, count: nat, per: nat)
    requires per > 0
  {
    && i + count <= |g.frames| && (g.base + i) % per == 0
    && forall j :: i <= j < i + count ==> g.frames[j] == Free
  }

  ghost predicate RunAt(rs: seq<Region>, r: nat, i: nat, count: nat, per: nat)
    requires per > 0
  {
    r < |rs| && RunIn(rs[r], i, count, per)
  }

  /** The run at (r, i) is the first one of all. */
  ghost predicate FirstRun(rs: seq<Region>, r: nat, i: nat, count: nat, per: nat)
    requires per > 0
  {
    && RunAt(rs, r, i, count, per)
    && forall r': nat, i': nat :: Before(r', i', Pos(r, i)) ==> !RunAt(rs, r', i', count, per)
  }

  ghost predicate NoRun(rs: seq<Region>, count: nat, per: nat)
    requires per > 0
  {
    forall r: nat, i: nat :: !RunAt(rs, r, i, count, per)
  }

  /** A run of at least one frame starts at a free frame. */
  lemma RunStartsFree(rs: seq<Region>, p: Pos, r: nat, i: nat, count: nat, per: nat)
    requires per > 0 && count > 0 && NoneFreeBefore(rs, p) && Before(r, i, p)
    ensures !RunAt(rs, r, i, count, per)
  {
  }

  lemma NextAligned(a: nat, per: nat)
    requires per > 0
    ensures (a + per) % per == a % per
  {
    MulDist(a / per, 1, per);
    Euclid(a + per, per, a / per + 1, a % per);
  }

  lemma AlignUp(a: nat, per: nat)
    requires per > 0 && a % per != 0
    ensures (a + (per - a % per)) % per == 0
  {
    MulDist(a / per, 1, per);
    Euclid(a + (per - a % per), per, a / per + 1, 0);
  }

  /** Up to the next multiple of `per` there is no aligned frame. */
  lemma NoRunInGap(g: Region, start: nat, i: nat, count: nat, per: nat)
    requires per > 0 && start <= i < start + (per - (g.base + start) % per)
    requires (g.base + start) % per == 0 ==> start < i
    ensures !RunIn(g, i, count, per)
  {
    var a := g.base + start;
    Euclid(a + (i - start), per, a / per, a % per + (i - start));
  }

  // ------------------------------------------------------------- marking frames

  function Fill(s: seq<FrameState>, i: nat, count: nat, st: FrameState): (r: seq<FrameState>)
    requires i + count <= |s|
    ensures |r| == |s|
    ensures forall j :: 0 <= j < |s| ==> r[j] == if i <= j < i + count then st else s[j]
  {
    s[..i] + seq(count, _ => st) + s[i + count..]
  }

  function Mark(rs: seq<Region>, r: nat, i: nat, count: nat, st: FrameState): (out: seq<Region>)
    requires r < |rs| && i + count <= |rs[r].frames|
    ensures |out| == |rs|
  {
    rs[r := rs[r].(frames := Fill(rs[r].frames, i, count, st))]
  }

  // ------------------------------------------------------------- giving frames back

  predicate Contains(g: Region, page: nat) {
    g.base <= page < g.base + |g.frames|
  }

  function Locate(rs: seq<Region>, page: nat, from: nat): Option<Pos>
    requires from <= |rs|
    decreases |rs| - from
  {
    if from == |rs| then None
    else if Contains(rs[from], page) then Some(Pos(from, page - rs[from].base))
    else Locate(rs, page, from + 1)
  }

  ghost predicate Disjoint(rs: seq<Region>) {
    forall a, b, page :: 0 <= a < b < |rs| && Contains(rs[a], page) ==> !Contains(rs[b], page)
  }

  lemma {:induction false} LocateFinds(rs: seq<Region>, page: nat, from: nat)
    requires from <= |rs|
    ensures match Locate(rs, page, from)
      case None => forall r :: from <= r < |rs| ==> !Contains(rs[r], page)
      case Some(p) => from <= p.region < |rs| && Contains(rs[p.region], page) && p.frame == page - rs[p.region].base
    decreases |rs| - from
  {
    if from < |rs| && !Contains(rs[from], page) {
      LocateFinds(rs, page, from + 1);
    }
  }

  lemma LocateOwn(rs: seq<Region>, r: nat, k: nat)
    requires Disjoint(rs) && r < |rs| && k < |rs[r].frames|
    ensures Locate(rs, rs[r].base + k, 0) == Some(Pos(r, k))
  {
    var page := rs[r].base + k;
    LocateFinds(rs, page, 0);
    assert Contains(rs[r], page);
  }

  /** Freeing one frame: it must be tracked and allocated. */
  function Release(rs: seq<Region>, page: nat): Option<seq<Region>> {
    match Locate(rs, page, 0)
    case None => None
    case Some(p) =>
      if p.region < |rs| && p.frame < |rs[p.region].frames| && rs[p.region].frames[p.frame] == Allocated
      then Some(Mark(rs, p.region, p.frame, 1, Free))
      else None
  }

  function ReleaseRun(rs: seq<Region>, page: nat, m: nat): Option<seq<Region>>
    decreases m
  {
    if m == 0 then Some(rs)
    else
      match Release(rs, page)
      case None => None
      case Some(rs') => ReleaseRun(rs', page + 1, m - 1)
  }

  /** Freeing frame after frame up to the first that is refused. */
  function ReleaseWhile(rs: seq<Region>, page: nat, m: nat): seq<Region>
    decreases m
  {
    if m == 0 then rs
    else
      match Release(rs, page)
      case None => rs
      case Some(rs') => ReleaseWhile(rs', page + 1, m - 1)
  }

  /** What is freed is the longest run that can be: all of it, or what lies before a frame that is refused. */
  lemma {:induction false} ReleaseStops(rs: seq<Region>, page: nat, m: nat) returns (n: nat)
    ensures n <= m && ReleaseRun(rs, page, n) == Some(ReleaseWhile(rs, page, m))
    ensures n == m <==> ReleaseRun(rs, page, m).Some?
    ensures n < m ==> Release(ReleaseWhile(rs, page, m), page + n).None?
    decreases m
  {
    n := 0;
    if m > 0 && Release(rs, page).Some? {
      n := ReleaseStops(Release(rs, page).value, page + 1, m - 1);
      n := n + 1;
    }
  }

  lemma MarkDisjoint(rs: seq<Region>, r: nat, i: nat, count: nat, st: FrameState)
    requires Disjoint(rs) && r < |rs| && i + count <= |rs[r].frames|
    ensures Disjoint(Mark(rs, r, i, count, st))
  {
    var out := Mark(rs, r, i, count, st);
    forall a, b, page | 0 <= a < b < |out| && Contains(out[a], page) ensures !Contains(out[b], page) {
      assert Contains(rs[a], page);
      assert !Contains(rs[b], page);
    }
  }

  /** Freeing an allocated run gives back exactly the states from before the allocation. */
  lemma {:induction false} ReleaseRestores(rs: seq<Region>, r: nat, i: nat, count: nat)
    requires Disjoint(rs) && r < |rs| && i + count <= |rs[r].frames|
    requires forall j :: i <= j < i + count ==> rs[r].frames[j] == Free
    ensures ReleaseRun(Mark(rs, r, i, count, Allocated), rs[r].base + i, count) == Some(rs)
    decreases count
  {
    var marked := Mark(rs, r, i, count, Allocated);
    if count == 0 {
      assert Fill(rs[r].frames, i, 0, Allocated) == rs[r].frames;
      assert marked == rs;
    } else {
      MarkDisjoint(rs, r, i, count, Allocated);
      LocateOwn(marked, r, i);
      var next := Mark(marked, r, i, 1, Free);
      assert next[r].frames == Fill(rs[r].frames, i + 1, count - 1, Allocated);
      assert next == Mark(rs, r, i + 1, count - 1, Allocated);
      ReleaseRestores(rs, r, i + 1, count - 1);
    }
  }

  /** Freeing what an allocation returned undoes it: every frame state and the first free frame are back. */
  lemma FreeUndoesAllocation(rs: seq<Region>, ff: Option<Pos>, r: nat, i: nat, count: nat, per: nat,
                             rs': seq<Region>, ff': Option<Pos>)
    requires per > 0 && Disjoint(rs) && IsFirstFree(rs, ff) && FirstRun(rs, r, i, count, per)
    requires ReleaseRun(Mark(rs, r, i, count, Allocated), rs[r].base + i, count) == Some(rs') && IsFirstFree(rs', ff')
    ensures rs' == rs && ff' == ff
  {
    ReleaseRestores(rs, r, i, count);
    FirstFreeUnique(rs, ff, ff');
  }

  // ------------------------------------------------------------- the manager

  /** The pages handed out, by the numbers of their first frames. */
  datatype PageRange = PageRange(start: nat, end: nat)

  method FreeFrom(frames: seq<FrameState>, start: nat) returns (r: Option<nat>)
    ensures r.None? ==> forall i :: start <= i < |frames| ==> frames[i] != Free
    ensures r.Some? ==> start <= r.value < |frames| && frames[r.value] == Free
    ensures r.Some? ==> forall i :: start <= i < r.value ==> frames[i] != Free
  {
    var i := start;
    while i < |frames|
      invariant i >= start && forall j :: start <= j < i && j < |frames| ==> frames[j] != Free
    {
      if frames[i] == Free {
        return Some(i);
      }
      i := i + 1;
    }
    return None;
  }

  /** The first aligned run of free frames at or after `start`. */
  method SearchRegion(g: Region, start: nat, count: nat, per: nat) returns (r: Option<nat>)
    requires per > 0
    ensures r.None? ==> forall i: nat :: start <= i ==> !RunIn(g, i, count, per)
    ensures r.Some? ==> start <= r.value && RunIn(g, r.value, count, per)
    ensures r.Some? ==> forall i: nat :: start <= i < r.value ==> !RunIn(g, i, count, per)
  {
    var misalignment := (g.base + start) % per;
    var current := start;
    if misalignment != 0 {
      AlignUp(g.base + start, per);
      current := start + (per - misalignment);
      forall i: nat | start <= i < current ensures !RunIn(g, i, count, per) {
        NoRunInGap(g, start, i, count, per);
      }
    }
    r := SearchAligned(g, start, current, count, per);
  }

  method SearchAligned(g: Region, start: nat, first: nat, count: nat, per: nat) returns (r: Option<nat>)
    requires per > 0 && start <= first && (g.base + first) % per == 0
    requires forall i: nat :: start <= i < first ==> !RunIn(g, i, count, per)
    ensures r.None? ==> forall i: nat :: start <= i ==> !RunIn(g, i, count, per)
    ensures r.Some? ==> start <= r.value && RunIn(g, r.value, count, per)
    ensures r.Some? ==> forall i: nat :: start <= i < r.value ==> !RunIn(g, i, count, per)
  {
    var current := first;
    while current + count <= |g.frames|
      invariant start <= current && (g.base + current) % per == 0
      invariant forall i: nat :: start <= i < current ==> !RunIn(g, i, count, per)
      decreases |g.frames| - current
    {
      if forall j :: current <= j < current + count ==> g.frames[j] == Free {
        return Some(current);
      }
      forall i: nat | current < i < current + per ensures !RunIn(g, i, count, per) {
        NoRunInGap(g, current, i, count, per);
      }
      NextAligned(g.base + current, per);
      current := current + per;
    }
    return None;
  }

  class PhysicalMemoryManager {
    var regions: seq<Region>
    var firstFree: Option<Pos>

    ghost predicate Valid()
      reads this
    {
      IsFirstFree(regions, firstFree)
    }

    constructor (rs: seq<Region>)
      ensures Valid() && regions == rs
    {
      regions := rs;
      firstFree := None;
      new;
      UpdateFirstFree(0, 0);
    }

    /** Looks for the first free frame at or after a position that has none before it. */
    method UpdateFirstFree(startRegion: nat, startIndex: nat)
      requires NoneFreeBefore(regions, Pos(startRegion, startIndex))
      modifies this`firstFree
      ensures Valid()
    {
      if startRegion < |regions| {
        var here := FreeFrom(regions[startRegion].frames, startIndex);
        if here.Some? {
          firstFree := Some(Pos(startRegion, here.value));
          return;
        }
      }
      var region := startRegion + 1;
      while region < |regions|
        invariant region > startRegion && NoneFreeBefore(regions, Pos(region, 0))
      {
        var there := FreeFrom(regions[region].frames, 0);
        if there.Some? {
          firstFree := Some(Pos(region, there.value));
          return;
        }
        region := region + 1;
      }
      firstFree := None;
    }

    /** Finds the first run of all, starting where the first free frame is. */
    method FindRun(count: nat, per: nat) returns (r: Option<Pos>)
      requires Valid() && count > 0 && per > 0
      ensures r.None? ==> NoRun(regions, count, per)
      ensures r.Some? ==> firstFree.Some? && FirstRun(regions, r.value.region, r.value.frame, count, per)
    {
      if firstFree.None? {
        forall r: nat, i: nat ensures !RunAt(regions, r, i, count, per) {
          if r < |regions| {
            RunStartsFree(regions, Pos(|regions|, 0), r, i, count, per);
          }
        }
        return None;
      }
      var ff := firstFree.value;
      forall r: nat, i: nat | Before(r, i, ff) ensures !RunAt(regions, r, i, count, per) {
        RunStartsFree(regions, ff, r, i, count, per);
      }
      var region := ff.region;
      while region < |regions|
        invariant ff.region <= region <= |regions|
        invariant region > ff.region ==> forall r: nat, i: nat :: r < region ==> !RunAt(regions, r, i, count, per)
      {
        var start := if region == ff.region then ff.frame else 0;
        var found := SearchRegion(regions[region], start, count, per);
        if found.Some? {
          return Some(Pos(region, found.value));
        }
        region := region + 1;
      }
      return None;
    }

    /** Allocates `n` pages: the first aligned free run inside one region, or nothing if there is none. */
    method AllocateFrames(n: nat, per: nat) returns (r: Option<PageRange>, ghost at: Pos)
      requires Valid() && n >= 1 && per > 0
      modifies this
      ensures Valid()
      ensures r.None? ==> NoRun(old(regions), n * per, per) && regions == old(regions)
      ensures r.Some? ==> FirstRun(old(regions), at.region, at.frame, n * per, per)
      ensures r.Some? ==> regions == Mark(old(regions), at.region, at.frame, n * per, Allocated)
      ensures r.Some? ==>
        r.value.start == old(regions)[at.region].base + at.frame && r.value.end == r.value.start + (n - 1) * per
    {
      at := Pos(0, 0);
      MulLe(1, n, per);
      var count := n * per;
      var found := FindRun(count, per);
      if found.None? {
        return None, at;
      }
      var region, frame := found.value.region, found.value.frame;
      at := found.value;
      var start := regions[region].base + frame;
      MarkRun(region, frame, count, per);
      return Some(PageRange(start, start + (n - 1) * per)), at;
    }

    /** Marks a found run as allocated and moves the first free frame past it if it was in it. */
    method MarkRun(region: nat, frame: nat, count: nat, per: nat)
      requires Valid() && count > 0 && per > 0 && firstFree.Some? && RunAt(regions, region, frame, count, per)
      modifies this
      ensures Valid() && regions == Mark(old(regions), region, frame, count, Allocated)
    {
      var ff := firstFree.value;
      if Before(region, frame, ff) {
        RunStartsFree(regions, ff, region, frame, count, per);
      }
      regions := Mark(regions, region, frame, count, Allocated);
      if region == ff.region && frame <= ff.frame {
        UpdateFirstFree(region, frame + count);
      }
    }

    /** Frees one 4 KiB frame. */
    method DeallocateFrame(page: nat) returns (ok: bool)
      requires Valid()
      modifies this
      ensures Valid()
      ensures ok == Release(old(regions), page).Some?
      ensures regions == if ok then Release(old(regions), page).value else old(regions)
    {
      LocateFinds(regions, page, 0);
      var region := 0;
      while region < |regions| && !Contains(regions[region], page)
        invariant region <= |regions| && Locate(regions, page, 0) == Locate(regions, page, region)
      {
        region := region + 1;
      }
      if region == |regions| {
        return false;
      }
      var frame := page - regions[region].base;
      if regions[region].frames[frame] != Allocated {
        return false;
      }
      regions := Mark(regions, region, frame, 1, Free);
      if firstFree.None? || Before(region, frame, firstFree.value) {
        firstFree := Some(Pos(region, frame));
      }
      return true;
    }

    /** Frees the frames of one page in turn, up to the first that cannot be freed. */
    method DeallocatePage(page: nat, per: nat) returns (ok: bool)
      requires Valid()
      modifies this
      ensures Valid()
      ensures ok == ReleaseRun(old(regions), page, per).Some?
      ensures ok ==> Some(regions) == ReleaseRun(old(regions), page, per)
      ensures regions == ReleaseWhile(old(regions), page, per)
    {
      hide Release, IsFirstFree;
      for i := 0 to per
        invariant Valid() && ReleaseRun(old(regions), page, per) == ReleaseRun(regions, page + i, per - i)
        invariant ReleaseWhile(old(regions), page, per) == ReleaseWhile(regions, page + i, per - i)
      {
        var freed := DeallocateFrame(page + i);
        if !freed {
          return false;
        }
      }
      return true;
    }

    /** Frees a range of pages, given by the first frames of its first and last page. */
    method DeallocateFrames(start: nat, n: nat, per: nat) returns (ok: bool)
      requires Valid()
      modifies this
      ensures Valid()
      ensures ok == ReleaseRun(old(regions), start, n * per).Some?
      ensures ok ==> Some(regions) == ReleaseRun(old(regions), start, n * per)
      ensures regions == ReleaseWhile(old(regions), start, n * per)
    {
      hide ReleaseRun, ReleaseWhile, IsFirstFree;
      var page: nat := start;
      ghost var left: nat := n * per;
      for i := 0 to n
        invariant Valid() && left == (n - i) * per
        invariant ReleaseRun(old(regions), start, n * per) == ReleaseRun(regions, page, left)
        invariant ReleaseWhile(old(regions), start, n * per) == ReleaseWhile(regions, page, left)
      {
        MulNext(n - i - 1, per);
        left := (n - i - 1) * per;
        ReleaseSplit(regions, page, per, left);
        var freed := DeallocatePage(page, per);
        if !freed {
          return false;
        }
        page := page + per;
      }
      ReleaseNone(regions, page);
      return true;
    }
  }

  lemma ReleaseNone(rs: seq<Region>, page: nat)
    ensures ReleaseRun(rs, page, 0) == Some(rs) && ReleaseWhile(rs, page, 0) == rs
  {
  }

  lemma {:induction false} ReleaseSplit(rs: seq<Region>, page: nat, a: nat, b: nat)
    ensures ReleaseRun(rs, page, a + b) ==
      match ReleaseRun(rs, page, a) case None => None case Some(rs') => ReleaseRun(rs', page + a, b)
    ensures ReleaseWhile(rs, page, a + b) ==
      match ReleaseRun(rs, page, a) case None => ReleaseWhile(rs, page, a) case Some(rs') => ReleaseWhile(rs', page + a, b)
    decreases a
  {
    if a > 0 {
      match Release(rs, page)
      case None =>
      case Some(rs') => ReleaseSplit(rs', page + 1, a - 1, b);
    }
  }
}
