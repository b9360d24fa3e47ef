/** The virtual segment manager: an ordered set of reserved segments and first-fit reservation by
bumping past whatever overlaps. */
module VirtualMemory {
  import opened Basics
  import opened Arith

  datatype Segment = Segment(start: nat, len: nat) {
    function End(): nat { start + len }
  }

  predicate Overlap(a: Segment, b: Segment) {
    a.start < b.End() && b.start < a.End()
  }

  /** No reserved segment overlaps `s`. */
  ghost predicate Fits(segments: seq<Segment>, s: Segment) {
    forall i :: 0 <= i < |segments| ==> !Overlap(s, segments[i])
  }

  /** Non-empty, in ascending order, and each ending where or before the next starts. */
  ghost predicate Apart(segments: seq<Segment>) {
    && (forall i :: 0 <= i < |segments| ==> segments[i].len > 0)
    && (forall i, j :: 0 <= i < j < |segments| ==> segments[i].End() <= segments[j].start)
  }

  /** Where an ordered insertion puts `s`. */
  function Place(segments: seq<Segment>, s: Segment): (r: nat)
    ensures r <= |segments|
    ensures forall i :: 0 <= i < r ==> segments[i].start < s.start
    ensures r < |segments| ==> s.start <= segments[r].start
  {
    if segments == [] || s.start <= segments[0].start then 0
    else
      assert forall i :: 0 < i < |segments| ==> segments[i] == segments[1..][i - 1];
      1 + Place(segments[1..], s)
  }

  function Inserted(segments: seq<Segment>, s: Segment): seq<Segment> {
    segments[..Place(segments, s)] + [s] + segments[Place(segments, s)..]
  }

  /** Inserting a segment that fits keeps the segments in order and disjoint. */
  lemma InsertedApart(segments: seq<Segment>, s: Segment)
    requires Apart(segments) && s.len > 0 && Fits(segments, s)
    ensures Apart(Inserted(segments, s))
  {
    var at := Place(segments, s);
    forall i | 0 <= i < at ensures segments[i].End() <= s.start {
      assert !Overlap(s, segments[i]);
    }
    forall i | at <= i < |segments| ensures s.End() <= segments[i].start {
      assert !Overlap(s, segments[i]);
      assert segments[at].start <= segments[i].start;
    }
    BetweenApart(segments, s, at);
  }

  lemma BetweenApart(segments: seq<Segment>, s: Segment, at: nat)
    requires Apart(segments) && s.len > 0 && at <= |segments|
    requires forall i :: 0 <= i < at ==> segments[i].End() <= s.start
    requires forall i :: at <= i < |segments| ==> s.End() <= segments[i].start
    ensures Apart(segments[..at] + [s] + segments[at..])
  {
    var out := segments[..at] + [s] + segments[at..];
    forall i | 0 <= i < |out| ensures out[i] == if i < at then segments[i] else if i == at then s else segments[i - 1] {
    }
    forall i, j | 0 <= i < j < |out| ensures out[i].End() <= out[j].start {
      if i == at {
        assert s.End() <= segments[j - 1].start;
      } else if j == at {
        assert segments[i].End() <= s.start;
      } else {
        var i', j' := if i < at then i else i - 1, if j < at then j else j - 1;
        assert segments[i'].End() <= segments[j'].start;
      }
    }
  }

  lemma RemovedApart(segments: seq<Segment>, k: nat)
    requires Apart(segments) && k < |segments|
    ensures Apart(segments[..k] + segments[k + 1..])
  {
    var out := segments[..k] + segments[k + 1..];
    assert forall i :: 0 <= i < |out| ==> out[i] == if i < k then segments[i] else segments[i + 1];
  }

  /** `after` is `before` without its entry `s`. */
  ghost predicate IsRemoval(before: seq<Segment>, s: Segment, after: seq<Segment>) {
    exists k :: 0 <= k < |before| && before[k] == s && after == before[..k] + before[k + 1..]
  }

  lemma InsertedAt(segments: seq<Segment>, s: Segment)
    ensures var at, out := Place(segments, s), Inserted(segments, s);
      |out| == |segments| + 1 && out[at] == s && out[..at] + out[at + 1..] == segments
  {
    var at, out := Place(segments, s), Inserted(segments, s);
    assert out[..at] == segments[..at] && out[at + 1..] == segments[at..];
  }

  lemma SameEntry(segments: seq<Segment>, i: nat, j: nat)
    requires Apart(segments) && i < |segments| && j < |segments| && segments[i] == segments[j]
    ensures i == j
  {
  }

  /** Removing what was inserted gives back the segments from before. */
  lemma RemoveUndoesInsert(segments: seq<Segment>, s: Segment, after: seq<Segment>)
    requires Apart(segments) && s.len > 0 && Fits(segments, s) && IsRemoval(Inserted(segments, s), s, after)
    ensures after == segments
  {
    var out := Inserted(segments, s);
    var k :| 0 <= k < |out| && out[k] == s && after == out[..k] + out[k + 1..];
    InsertedApart(segments, s);
    InsertedAt(segments, s);
    SameEntry(out, k, Place(segments, s));
  }

  /** Reserved segments past `from`: the bump loop runs once for each at most. */
  ghost function EndsPast(segments: seq<Segment>, from: nat): nat {
    if segments == [] then 0 else (if segments[0].End() > from then 1 else 0) + EndsPast(segments[1..], from)
  }

  lemma {:induction false} EndsPastFewer(segments: seq<Segment>, from: nat, to: nat, e: Segment)
    requires from <= to
    ensures EndsPast(segments, to) <= EndsPast(segments, from)
    ensures e in segments && from < e.End() <= to ==> EndsPast(segments, to) < EndsPast(segments, from)
  {
    if segments != [] {
      EndsPastFewer(segments[1..], from, to, e);
    }
  }

  /** A candidate that overlaps `e` stays overlapping until it starts at the end of `e`. */
  lemma NoFitBefore(segments: seq<Segment>, e: Segment, from: nat, a: nat, n: nat)
    requires e in segments && Overlap(Segment(from, n), e) && from <= a < e.End()
    ensures !Fits(segments, Segment(a, n))
  {
    var i :| 0 <= i < |segments| && segments[i] == e;
    assert Overlap(Segment(a, n), segments[i]);
  }

  /** No `n` bytes starting from `lo` up to before `hi` fit. */
  ghost predicate NoFitFrom(segments: seq<Segment>, lo: nat, hi: nat, n: nat) {
    forall a :: lo <= a < hi ==> !Fits(segments, Segment(a, n))
  }

  lemma BumpSkipsNothing(segments: seq<Segment>, lo: nat, from: nat, e: Segment, n: nat)
    requires NoFitFrom(segments, lo, from, n) && e in segments && Overlap(Segment(from, n), e)
    ensures NoFitFrom(segments, lo, e.End(), n)
  {
    forall a | lo <= a < e.End() ensures !Fits(segments, Segment(a, n)) {
      if from <= a {
        NoFitBefore(segments, e, from, a, n);
      }
    }
  }

  /** A reservation starts where the range does, or where a reserved segment ends. */
  ghost predicate StartsAtEdge(segments: seq<Segment>, memStart: nat, start: nat) {
    start == memStart || exists i :: 0 <= i < |segments| && start == segments[i].End()
  }

  /** A call with its arguments and its result. */
  datatype Call =
    | Reserve(n: nat, r: Option<Segment>)
    | MarkAsReserved(s: Segment, ok: bool)
    | Release(s: Segment, found: bool)

  /** What a call does to the reserved segments. */
  ghost predicate Effect(memStart: nat, before: seq<Segment>, call: Call, after: seq<Segment>) {
    match call
    case Reserve(n, None) => after == before
    case Reserve(n, Some(s)) =>
      && s.len == n > 0 && Fits(before, s) && StartsAtEdge(before, memStart, s.start)
      && after == Inserted(before, s)
    case MarkAsReserved(s, ok) =>
      s.len > 0 && ok == Fits(before, s) && after == if ok then Inserted(before, s) else before
    case Release(s, found) =>
      found == (s in before) && if found then IsRemoval(before, s, after) else after == before
  }

  class VirtualMemoryManager {
    const memStart: nat
    const memSize: nat
    var segments: seq<Segment>

    ghost predicate Valid()
      reads this
    {
      memSize > 0 && Apart(segments)
    }

    constructor (start: nat, size: nat)
      requires size > 0
      ensures Valid() && segments == [] && memStart == start && memSize == size
    {
      memStart, memSize, segments := start, size, [];
    }

    method FindOverlapping(s: Segment) returns (r: Option<Segment>)
      ensures r.None? <==> Fits(segments, s)
      ensures r.Some? ==> r.value in segments && Overlap(s, r.value)
    {
      for i := 0 to |segments|
        invariant forall j :: 0 <= j < i ==> !Overlap(s, segments[j])
      {
        if s.start <= segments[i].End() - 1 && segments[i].start <= s.End() - 1 {
          return Some(segments[i]);
        }
      }
      return None;
    }

    /** Bumps past overlapping segments to the lowest address at which `n` bytes fit. */
    method FindFit(n: nat) returns (s: Segment)
      requires n > 0
      ensures s.len == n && memStart <= s.start && Fits(segments, s)
      ensures NoFitFrom(segments, memStart, s.start, n) && StartsAtEdge(segments, memStart, s.start)
    {
      s := Segment(memStart, n);
      var existing := FindOverlapping(s);
      while existing.Some?
        invariant s.len == n && memStart <= s.start
        invariant existing.None? ==> Fits(segments, s)
        invariant existing.Some? ==> existing.value in segments && Overlap(s, existing.value)
        invariant NoFitFrom(segments, memStart, s.start, n) && StartsAtEdge(segments, memStart, s.start)
        decreases EndsPast(segments, s.start)
      {
        var e := existing.value;
        BumpSkipsNothing(segments, memStart, s.start, e, n);
        EndsPastFewer(segments, s.start, e.End(), e);
        s := Segment(e.End(), n);
        existing := FindOverlapping(s);
      }
    }

    /** Reserves the lowest `n` bytes in range that overlap nothing, or fails if there are none. */
    method Reserve(n: nat) returns (r: Option<Segment>)
      requires Valid()
      modifies this
      ensures Valid()
      ensures n == 0 ==> r.None?
      ensures r.None? ==> segments == old(segments)
      ensures r.None? && n > 0 ==> forall a :: memStart <= a && a + n <= memStart + memSize ==> !Fits(old(segments), Segment(a, n))
      ensures r.Some? ==> r.value.len == n && memStart <= r.value.start && r.value.End() <= memStart + memSize
      ensures r.Some? ==> Fits(old(segments), r.value) && segments == Inserted(old(segments), r.value)
      ensures r.Some? ==> NoFitFrom(old(segments), memStart, r.value.start, n)
      ensures Effect(memStart, old(segments), Call.Reserve(n, r), segments)
    {
      if n == 0 {
        return None;
      }
      var s := FindFit(n);
      if memStart + (memSize - 1) < s.start + (s.len - 1) {
        return None;
      }
      InsertedApart(segments, s);
      segments := Inserted(segments, s);
      return Some(s);
    }

    method Release(s: Segment) returns (found: bool)
      requires Valid()
      modifies this
      ensures Valid()
      ensures Effect(memStart, old(segments), Call.Release(s, found), segments)
    {
      var k := 0;
      while k < |segments| && segments[k] != s
        invariant k <= |segments| && s !in segments[..k]
      {
        k := k + 1;
      }
      if k == |segments| {
        return false;
      }
      RemovedApart(segments, k);
      segments := segments[..k] + segments[k + 1..];
      return true;
    }

    method MarkAsReserved(s: Segment) returns (ok: bool)
      requires Valid() && s.len > 0
      modifies this
      ensures Valid()
      ensures Effect(memStart, old(segments), Call.MarkAsReserved(s, ok), segments)
    {
      var existing := FindOverlapping(s);
      if existing.Some? {
        return false;
      }
      InsertedApart(segments, s);
      segments := Inserted(segments, s);
      return true;
    }
  }

  // ------------------------------------------------------------- whole pages

  ghost predicate WholePages(segments: seq<Segment>, page: nat)
    requires page > 0
  {
    forall i :: 0 <= i < |segments| ==> segments[i].start % page == 0 && segments[i].len % page == 0
  }

  lemma EndAligned(s: Segment, page: nat)
    requires page > 0 && s.start % page == 0 && s.len % page == 0
    ensures s.End() % page == 0
  {
    var a, b := s.start / page, s.len / page;
    MulDist(a, b, page);
    Euclid(s.End(), page, a + b, 0);
  }

  /** When everything is a multiple of the page size, so is what a reservation returns, and it stays so. */
  lemma ReserveWholePages(segments: seq<Segment>, memStart: nat, s: Segment, page: nat)
    requires page > 0 && WholePages(segments, page) && memStart % page == 0 && s.len % page == 0
    requires StartsAtEdge(segments, memStart, s.start)
    ensures s.start % page == 0 && WholePages(Inserted(segments, s), page)
  {
    if s.start != memStart {
      var i :| 0 <= i < |segments| && s.start == segments[i].End();
      EndAligned(segments[i], page);
    }
  }

  /** The lengths asked for, and the segments marked, are whole pages. */
  predicate InPages(call: Call, page: nat)
    requires page > 0
  {
    match call
    case Reserve(n, _) => n % page == 0
    case MarkAsReserved(s, _) => s.start % page == 0 && s.len % page == 0
    case Release(_, _) => true
  }

  lemma RemovedWholePages(before: seq<Segment>, k: nat, page: nat)
    requires page > 0 && WholePages(before, page) && k < |before|
    ensures WholePages(before[..k] + before[k + 1..], page)
  {
  }

  lemma InsertedWholePages(before: seq<Segment>, s: Segment, page: nat)
    requires page > 0 && WholePages(before, page) && s.start % page == 0 && s.len % page == 0
    ensures WholePages(Inserted(before, s), page)
  {
  }

  lemma StepWholePages(memStart: nat, page: nat, before: seq<Segment>, call: Call, after: seq<Segment>)
    requires page > 0 && memStart % page == 0 && InPages(call, page) && Effect(memStart, before, call, after)
    requires Apart(before) && WholePages(before, page)
    ensures Apart(after) && WholePages(after, page)
  {
    hide Apart, WholePages, Fits, StartsAtEdge, Inserted;
    match call
    case Reserve(n, None) =>
    case Reserve(n, Some(s)) =>
      InsertedApart(before, s);
      ReserveWholePages(before, memStart, s, page);
    case MarkAsReserved(s, ok) =>
      if ok {
        InsertedApart(before, s);
        InsertedWholePages(before, s, page);
      }
    case Release(s, found) =>
      if found {
        var k :| 0 <= k < |before| && before[k] == s && after == before[..k] + before[k + 1..];
        RemovedApart(before, k);
        RemovedWholePages(before, k, page);
      }
  }

  /** A run of calls from the empty manager, with the segments reserved in between. */
  ghost predicate IsRun(memStart: nat, states: seq<seq<Segment>>, calls: seq<Call>) {
    && |states| == |calls| + 1 && states[0] == []
    && forall i :: 0 <= i < |calls| ==> Effect(memStart, states[i], calls[i], states[i + 1])
  }

  lemma NothingReserved(page: nat)
    requires page > 0
    ensures Apart([]) && WholePages([], page)
  {
  }

  /** Over every run of reservations, markings and releases in whole pages the reserved segments are
  disjoint and whole pages. */
  lemma {:induction false} RunWholePages(memStart: nat, page: nat, states: seq<seq<Segment>>, calls: seq<Call>, i: nat)
    requires IsRun(memStart, states, calls) && page > 0 && memStart % page == 0 && i < |states|
    requires forall c :: c in calls ==> InPages(c, page)
    ensures Apart(states[i]) && WholePages(states[i], page)
  {
    hide Effect, Apart, WholePages, InPages;
    if i == 0 {
      NothingReserved(page);
    } else {
      RunWholePages(memStart, page, states, calls, i - 1);
      StepWholePages(memStart, page, states[i - 1], calls[i - 1], states[i]);
    }
  }
}
