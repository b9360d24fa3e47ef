/** The process-entry stack: the kernel's builder, the start code that reads it back, and the
argument budget that guarantees it fits. */
module ExecStack {
  import opened Basics
  import opened Bytes

  type Str = seq<byte>

  const WORD := 8

  // ------------------------------------------------------------- the layout

  /** Where string `i` starts when the strings are packed with their terminators. */
  function StrAt(strs: seq<Str>, i: nat): nat
    requires i <= |strs|
  {
    if i == 0 then 0 else StrAt(strs, i - 1) + |strs[i - 1]| + 1
  }

  lemma {:induction false} StrAtMono(strs: seq<Str>, i: nat, j: nat)
    requires i < j <= |strs|
    ensures StrAt(strs, i) + |strs[i]| + 1 <= StrAt(strs, j)
    decreases j
  {
    if i < j - 1 {
      StrAtMono(strs, i, j - 1);
    }
  }

  /** argc, the argv pointers, a null, the envp pointers, a null, and the empty auxiliary vector;
  `strs` are all strings and `at` is the address of the first. */
  function EntryWord(argc: nat, strs: seq<Str>, at: nat, k: nat): nat
    requires argc <= |strs|
  {
    if k == 0 then argc
    else if k <= argc then at + StrAt(strs, k - 1)
    else if k == argc + 1 then 0
    else if k < |strs| + 2 then at + StrAt(strs, k - 2)
    else 0
  }

  function EntryWords(argc: nat, strs: seq<Str>, at: nat): nat -> nat
    requires argc <= |strs|
  {
    (k: nat) => EntryWord(argc, strs, at, k)
  }

  function WordCount(strs: seq<Str>): nat { |strs| + 5 }

  function Need(strs: seq<Str>): nat { StrAt(strs, |strs|) + WORD * WordCount(strs) }

  /** The stack pointer for a stack that ends at `top`; negative when there is no room below it. */
  function EntryRsp(top: nat, strs: seq<Str>): int {
    (top - Need(strs)) / 16 * 16
  }

  predicate Fits(top: nat, size: nat, strs: seq<Str>) {
    size <= top && Need(strs) <= top && top - size <= EntryRsp(top, strs)
  }

  /** The 64-bit word at offset `at` reads as `v`. */
  ghost predicate WordIs(s: seq<byte>, at: int, v: nat) {
    0 <= at && at + WORD <= |s| && FromLe(s[at..at + WORD]) == v
  }

  /** The string `str` is at offset `at`, terminated. */
  ghost predicate StrIs(s: seq<byte>, at: int, str: Str) {
    0 <= at && at + |str| + 1 <= |s| && s[at..at + |str|] == str && s[at + |str|] == 0
  }

  /** The first `k` words from offset `low` on. */
  ghost predicate WordsIn(s: seq<byte>, low: nat, word: nat -> nat, k: nat) {
    k == 0 || (WordsIn(s, low, word, k - 1) && WordIs(s, low + WORD * (k - 1), word(k - 1)))
  }

  /** The first `m` strings, packed from offset `high` on. */
  ghost predicate StrsIn(s: seq<byte>, high: nat, strs: seq<Str>, m: nat)
    requires m <= |strs|
  {
    m == 0 || (StrsIn(s, high, strs, m - 1) && StrIs(s, high + StrAt(strs, m - 1), strs[m - 1]))
  }

  lemma {:induction false} WordIn(s: seq<byte>, low: nat, word: nat -> nat, k: nat, i: nat)
    requires WordsIn(s, low, word, k) && i < k
    ensures WordIs(s, low + WORD * i, word(i))
  {
    if i < k - 1 {
      WordIn(s, low, word, k - 1, i);
    }
  }

  lemma {:induction false} StrIn(s: seq<byte>, high: nat, strs: seq<Str>, m: nat, i: nat)
    requires m <= |strs| && StrsIn(s, high, strs, m) && i < m
    ensures StrIs(s, high + StrAt(strs, i), strs[i])
  {
    if i < m - 1 {
      StrIn(s, high, strs, m - 1, i);
    }
  }

  /** A complete entry stack: `s` ends at address `top`, the words start at `rsp`, the strings end it. */
  ghost predicate IsEntryStack(s: seq<byte>, top: nat, rsp: nat, argc: nat, strs: seq<Str>) {
    var base, at := top - |s|, top - StrAt(strs, |strs|);
    && argc <= |strs| && 0 <= base <= rsp && rsp + WORD * WordCount(strs) <= at
    && WordsIn(s, rsp - base, EntryWords(argc, strs, at), WordCount(strs))
    && StrsIn(s, at - base, strs, |strs|)
  }

  // ------------------------------------------------------------- writing

  /** Only bytes `lo` to `hi` differ. */
  ghost predicate SameOutside(s: seq<byte>, s': seq<byte>, lo: nat, hi: nat) {
    |s| == |s'| && forall i :: 0 <= i < |s| && !(lo <= i < hi) ==> s'[i] == s[i]
  }

  lemma SliceKept(s: seq<byte>, s': seq<byte>, lo: nat, hi: nat, a: nat, b: nat)
    requires SameOutside(s, s', lo, hi) && a <= b <= |s| && (b <= lo || hi <= a)
    ensures s'[a..b] == s[a..b]
  {
  }

  lemma {:induction false} WordsKept(s: seq<byte>, s': seq<byte>, lo: nat, hi: nat, low: nat, word: nat -> nat, k: nat)
    requires WordsIn(s, low, word, k) && SameOutside(s, s', lo, hi) && low + WORD * k <= lo
    ensures WordsIn(s', low, word, k)
  {
    if k > 0 {
      WordsKept(s, s', lo, hi, low, word, k - 1);
      SliceKept(s, s', lo, hi, low + WORD * (k - 1), low + WORD * k);
    }
  }

  lemma StrKept(s: seq<byte>, s': seq<byte>, lo: nat, hi: nat, at: nat, str: Str)
    requires StrIs(s, at, str) && SameOutside(s, s', lo, hi) && (hi <= at || at + |str| + 1 <= lo)
    ensures StrIs(s', at, str)
  {
    SliceKept(s, s', lo, hi, at, at + |str|);
    SliceKept(s, s', lo, hi, at + |str|, at + |str| + 1);
    assert s'[at + |str|] == s'[at + |str|..at + |str| + 1][0];
    assert s[at + |str|] == s[at + |str|..at + |str| + 1][0];
  }

  lemma {:induction false} StrsKept(s: seq<byte>, s': seq<byte>, lo: nat, hi: nat, high: nat, strs: seq<Str>, m: nat)
    requires m <= |strs| && StrsIn(s, high, strs, m) && SameOutside(s, s', lo, hi)
    requires hi <= high || high + StrAt(strs, m) <= lo
    ensures StrsIn(s', high, strs, m)
  {
    if m > 0 {
      StrsKept(s, s', lo, hi, high, strs, m - 1);
      StrKept(s, s', lo, hi, high + StrAt(strs, m - 1), strs[m - 1]);
    }
  }

  lemma SplicedOutside(s: seq<byte>, at: nat, bs: seq<byte>)
    requires at + |bs| <= |s|
    ensures SameOutside(s, Splice(s, at, bs), at, at + |bs|) && Splice(s, at, bs)[at..at + |bs|] == bs
  {
  }

  method PutWord(stack: array<byte>, at: nat, v: nat)
    requires at + WORD <= stack.Length && v < U64
    modifies stack
    ensures SameOutside(old(stack[..]), stack[..], at, at + WORD) && WordIs(stack[..], at, v)
  {
    var bs := Le(v, WORD);
    SplicedOutside(stack[..], at, bs);
    CopyInto(stack, at, bs);
    Pow256Values();
    FromLeLe(v, WORD);
  }

  method PutString(stack: array<byte>, at: nat, str: Str)
    requires at + |str| + 1 <= stack.Length
    modifies stack
    ensures SameOutside(old(stack[..]), stack[..], at, at + |str| + 1) && StrIs(stack[..], at, str)
  {
    SplicedOutside(stack[..], at, str + [0]);
    CopyInto(stack, at, str + [0]);
    StrFromBytes(stack[..], at, str);
  }

  lemma StrFromBytes(s: seq<byte>, at: nat, str: Str)
    requires at + |str| + 1 <= |s| && s[at..at + |str| + 1] == str + [0]
    ensures StrIs(s, at, str)
  {
    assert s[at..at + |str|] == s[at..at + |str| + 1][..|str|];
    assert s[at + |str|] == s[at..at + |str| + 1][|str|];
  }

  /** The first `k` words and the first `m` strings are in place. */
  ghost predicate Wrote(s: seq<byte>, low: nat, word: nat -> nat, k: nat, high: nat, strs: seq<Str>, m: nat) {
    && low + WORD * k <= high && m <= |strs| && high + StrAt(strs, |strs|) <= |s|
    && WordsIn(s, low, word, k) && StrsIn(s, high, strs, m)
  }

  lemma NextWord(s: seq<byte>, s': seq<byte>, low: nat, word: nat -> nat, k: nat, high: nat, strs: seq<Str>, m: nat)
    requires Wrote(s, low, word, k, high, strs, m) && low + WORD * (k + 1) <= high
    requires SameOutside(s, s', low + WORD * k, low + WORD * k + WORD) && WordIs(s', low + WORD * k, word(k))
    ensures Wrote(s', low, word, k + 1, high, strs, m)
  {
    WordsKept(s, s', low + WORD * k, low + WORD * k + WORD, low, word, k);
    StrsKept(s, s', low + WORD * k, low + WORD * k + WORD, high, strs, m);
  }

  lemma NextString(s: seq<byte>, s': seq<byte>, low: nat, word: nat -> nat, k: nat, high: nat, strs: seq<Str>, m: nat)
    requires Wrote(s, low, word, k, high, strs, m) && m < |strs|
    requires SameOutside(s, s', high + StrAt(strs, m), high + StrAt(strs, m) + |strs[m]| + 1)
    requires StrIs(s', high + StrAt(strs, m), strs[m])
    ensures Wrote(s', low, word, k, high, strs, m + 1)
  {
    var at := high + StrAt(strs, m);
    WordsKept(s, s', at, at + |strs[m]| + 1, low, word, k);
    StrsKept(s, s', at, at + |strs[m]| + 1, high, strs, m);
  }

  method PutNextWord(stack: array<byte>, at: nat, v: nat,
                     ghost low: nat, ghost word: nat -> nat, ghost k: nat, ghost high: nat, ghost strs: seq<Str>, ghost m: nat)
    requires Wrote(stack[..], low, word, k, high, strs, m) && low + WORD * (k + 1) <= high
    requires at == low + WORD * k && v == word(k) < U64
    modifies stack
    ensures Wrote(stack[..], low, word, k + 1, high, strs, m)
  {
    hide WordsIn, StrsIn;
    ghost var s := stack[..];
    PutWord(stack, at, v);
    NextWord(s, stack[..], low, word, k, high, strs, m);
  }

  method PutNextString(stack: array<byte>, at: nat, str: Str,
                       ghost low: nat, ghost word: nat -> nat, ghost k: nat, ghost high: nat, ghost strs: seq<Str>, ghost m: nat)
    requires Wrote(stack[..], low, word, k, high, strs, m) && m < |strs|
    requires at == high + StrAt(strs, m) && str == strs[m]
    modifies stack
    ensures Wrote(stack[..], low, word, k, high, strs, m + 1)
  {
    StrAtMono(strs, m, |strs|);
    ghost var s := stack[..];
    PutString(stack, at, str);
    NextString(s, stack[..], low, word, k, high, strs, m);
  }

  /** One pointer and its string. */
  method PutEntry(stack: array<byte>, wordAt: nat, stringAt: nat, addr: nat, str: Str,
                  ghost low: nat, ghost word: nat -> nat, ghost k: nat, ghost high: nat, ghost strs: seq<Str>, ghost m: nat)
    requires Wrote(stack[..], low, word, k, high, strs, m) && low + WORD * (k + 1) <= high && m < |strs|
    requires wordAt == low + WORD * k && addr == word(k) < U64 && stringAt == high + StrAt(strs, m) && str == strs[m]
    modifies stack
    ensures Wrote(stack[..], low, word, k + 1, high, strs, m + 1)
  {
    hide Wrote, WordsIn, StrsIn;
    PutNextWord(stack, wordAt, addr, low, word, k, high, strs, m);
    PutNextString(stack, stringAt, str, low, word, k + 1, high, strs, m);
  }

  /** The words from number i + shift on are the addresses of the strings from `i` up to `last`, and a null. */
  ghost predicate GroupWords(word: nat -> nat, shift: nat, at: nat, strs: seq<Str>, i: nat, last: nat)
    requires i <= last <= |strs|
    decreases last - i
  {
    if i == last then word(i + shift) == 0
    else word(i + shift) == at + StrAt(strs, i) < U64 && GroupWords(word, shift, at, strs, i + 1, last)
  }

  lemma GroupNext(word: nat -> nat, shift: nat, at: nat, strs: seq<Str>, i: nat, last: nat)
    requires i < last <= |strs| && GroupWords(word, shift, at, strs, i, last)
    ensures word(i + shift) == at + StrAt(strs, i) < U64 && GroupWords(word, shift, at, strs, i + 1, last)
  {
  }

  lemma GroupEnd(word: nat -> nat, shift: nat, at: nat, strs: seq<Str>, last: nat)
    requires last <= |strs| && GroupWords(word, shift, at, strs, last, last)
    ensures word(last + shift) == 0
  {
  }

  lemma {:induction false} ArgGroup(argc: nat, strs: seq<Str>, at: nat, i: nat)
    requires i <= argc <= |strs| && at + StrAt(strs, |strs|) < U64
    ensures GroupWords(EntryWords(argc, strs, at), 1, at, strs, i, argc)
    decreases argc - i
  {
    if i < argc {
      StrAtMono(strs, i, |strs|);
      ArgGroup(argc, strs, at, i + 1);
    }
  }

  lemma {:induction false} EnvGroup(argc: nat, strs: seq<Str>, at: nat, i: nat)
    requires argc <= i <= |strs| && at + StrAt(strs, |strs|) < U64
    ensures GroupWords(EntryWords(argc, strs, at), 2, at, strs, i, |strs|)
    decreases |strs| - i
  {
    if i < |strs| {
      StrAtMono(strs, i, |strs|);
      EnvGroup(argc, strs, at, i + 1);
    }
  }

  /** Writes the strings from `first` up to `last` and their pointers. */
  method WriteEntries(stack: array<byte>, base: nat, strs: seq<Str>, first: nat, last: nat, ghost shift: nat,
                      wordAddr: nat, stringAddr: nat, ghost word: nat -> nat, ghost low: nat, ghost high: nat)
    returns (wordAddr': nat, stringAddr': nat)
    requires first <= last <= |strs| && GroupWords(word, shift, base + high, strs, first, last)
    requires Wrote(stack[..], low, word, first + shift, high, strs, first) && low + WORD * (last + shift) <= high
    requires wordAddr == base + low + WORD * (first + shift) && stringAddr == base + high + StrAt(strs, first)
    modifies stack
    ensures Wrote(stack[..], low, word, last + shift, high, strs, last) && word(last + shift) == 0
    ensures wordAddr' == base + low + WORD * (last + shift) && stringAddr' == base + high + StrAt(strs, last)
  {
    hide Wrote, GroupWords, WordsIn, StrsIn;
    var i := first;
    wordAddr', stringAddr' := wordAddr, stringAddr;
    while i < last
      invariant first <= i <= last && GroupWords(word, shift, base + high, strs, i, last)
      invariant wordAddr' == base + low + WORD * (i + shift) && stringAddr' == base + high + StrAt(strs, i)
      invariant Wrote(stack[..], low, word, i + shift, high, strs, i)
    {
      GroupNext(word, shift, base + high, strs, i, last);
      PutEntry(stack, wordAddr' - base, stringAddr' - base, stringAddr', strs[i], low, word, i + shift, high, strs, i);
      i, wordAddr', stringAddr' := i + 1, wordAddr' + WORD, stringAddr' + |strs[i]| + 1;
    }
    GroupEnd(word, shift, base + high, strs, last);
  }

  /** ... and the null after them. */
  method WriteGroup(stack: array<byte>, base: nat, strs: seq<Str>, first: nat, last: nat, ghost shift: nat,
                    wordAddr: nat, stringAddr: nat, ghost word: nat -> nat, ghost low: nat, ghost high: nat)
    returns (wordAddr': nat, stringAddr': nat)
    requires first <= last <= |strs| && GroupWords(word, shift, base + high, strs, first, last)
    requires Wrote(stack[..], low, word, first + shift, high, strs, first) && low + WORD * (last + shift + 1) <= high
    requires wordAddr == base + low + WORD * (first + shift) && stringAddr == base + high + StrAt(strs, first)
    modifies stack
    ensures Wrote(stack[..], low, word, last + shift + 1, high, strs, last)
    ensures wordAddr' == base + low + WORD * (last + shift + 1) && stringAddr' == base + high + StrAt(strs, last)
  {
    hide Wrote, GroupWords, WordsIn, StrsIn;
    wordAddr', stringAddr' := WriteEntries(stack, base, strs, first, last, shift, wordAddr, stringAddr, word, low, high);
    PutNextWord(stack, wordAddr' - base, 0, low, word, last + shift, high, strs, last);
    wordAddr' := wordAddr' + WORD;
  }

  method StringsLength(strs: seq<Str>) returns (n: nat)
    ensures n == StrAt(strs, |strs|)
  {
    n := 0;
    for i := 0 to |strs|
      invariant n == StrAt(strs, i)
    {
      n := n + |strs[i]| + 1;
    }
  }

  /** Builds the entry stack in place, or leaves the buffer alone and fails when it does not fit. */
  method BuildInitialStack(stack: array<byte>, top: nat, argv: seq<Str>, envp: seq<Str>) returns (r: Option<nat>)
    requires top < U64
    modifies stack
    ensures r.None? <==> !Fits(top, stack.Length, argv + envp)
    ensures r.None? ==> stack[..] == old(stack[..])
    ensures r.Some? ==> r.value % 16 == 0 && IsEntryStack(stack[..], top, r.value, |argv|, argv + envp)
  {
    var strs := argv + envp;
    var stringsLen := StringsLength(strs);
    var pointersLen := WORD * (|argv| + |envp| + 5);
    if stack.Length > top || stringsLen + pointersLen > top {
      return None;
    }
    var base := top - stack.Length;
    var rsp := (top - stringsLen - pointersLen) / 16 * 16;
    if rsp < base {
      return None;
    }
    RspFacts(top, Need(strs));
    WriteStack(stack, top, rsp, |argv|, strs);
    return Some(rsp);
  }

  lemma RspFacts(top: nat, need: nat)
    requires need <= top
    ensures var rsp := (top - need) / 16 * 16; rsp % 16 == 0 && rsp >= 0 && rsp + need <= top
  {
  }

  lemma WroteNothing(s: seq<byte>, low: nat, word: nat -> nat, high: nat, strs: seq<Str>)
    requires low <= high && high + StrAt(strs, |strs|) <= |s|
    ensures Wrote(s, low, word, 0, high, strs, 0)
  {
  }

  method WriteStack(stack: array<byte>, top: nat, rsp: nat, argc: nat, strs: seq<Str>)
    requires argc <= |strs| && stack.Length <= top < U64 && top - stack.Length <= rsp && rsp + Need(strs) <= top
    modifies stack
    ensures IsEntryStack(stack[..], top, rsp, argc, strs)
  {
    hide GroupWords, WordsIn, StrsIn, StrAt;
    var base, at := top - stack.Length, top - StrAt(strs, |strs|);
    ghost var low, high, word := rsp - base, at - base, EntryWords(argc, strs, at);
    ArgGroup(argc, strs, at, 0);
    EnvGroup(argc, strs, at, argc);
    WroteNothing(stack[..], low, word, high, strs);
    PutNextWord(stack, rsp - base, argc, low, word, 0, high, strs, 0);
    WriteRest(stack, base, rsp, at, argc, strs, word, low, high);
  }

  /** Both groups and the auxiliary vector's terminator. */
  method WriteRest(stack: array<byte>, base: nat, rsp: nat, at: nat, argc: nat, strs: seq<Str>,
                   ghost word: nat -> nat, ghost low: nat, ghost high: nat)
    requires argc <= |strs| && rsp == base + low && at == base + high && low + WORD * WordCount(strs) <= high
    requires GroupWords(word, 1, at, strs, 0, argc) && GroupWords(word, 2, at, strs, argc, |strs|)
    requires word(|strs| + 3) == 0 && word(|strs| + 4) == 0 && Wrote(stack[..], low, word, 1, high, strs, 0)
    modifies stack
    ensures Wrote(stack[..], low, word, WordCount(strs), high, strs, |strs|)
  {
    hide Wrote, GroupWords, WordsIn, StrsIn;
    var wordAddr, stringAddr := WriteGroup(stack, base, strs, 0, argc, 1, rsp + WORD, at, word, low, high);
    wordAddr, stringAddr := WriteGroup(stack, base, strs, argc, |strs|, 2, wordAddr, stringAddr, word, low, high);
    PutNulls(stack, wordAddr - base, word, |strs| + 3, low, high, strs);
  }

  method PutNulls(stack: array<byte>, at: nat, ghost word: nat -> nat, ghost k: nat, ghost low: nat, ghost high: nat, ghost strs: seq<Str>)
    requires Wrote(stack[..], low, word, k, high, strs, |strs|) && low + WORD * (k + 2) <= high
    requires at == low + WORD * k && word(k) == 0 && word(k + 1) == 0
    modifies stack
    ensures Wrote(stack[..], low, word, k + 2, high, strs, |strs|)
  {
    hide Wrote, WordsIn, StrsIn;
    PutNextWord(stack, at, 0, low, word, k, high, strs, |strs|);
    PutNextWord(stack, at + WORD, 0, low, word, k + 1, high, strs, |strs|);
  }

  // ------------------------------------------------------------- reading it back

  ghost predicate NulFree(strs: seq<Str>) {
    forall i :: 0 <= i < |strs| ==> 0 !in strs[i]
  }

  method WordAt(s: seq<byte>, at: nat) returns (v: nat)
    requires at + WORD <= |s|
    ensures v == FromLe(s[at..at + WORD])
  {
    v := FromLe(s[at..at + WORD]);
  }

  /** Counts up to the terminator. */
  method BytesOf(s: seq<byte>, at: nat, ghost str: Str) returns (r: Str)
    requires StrIs(s, at, str) && 0 !in str
    ensures r == str
  {
    ghost var part := s[at..at + |str|];
    var len := 0;
    while s[at + len] != 0
      invariant len <= |str| && (len < |str| ==> s[at + len] == part[len] != 0)
      decreases |str| - len
    {
      len := len + 1;
    }
    r := s[at..at + len];
  }

  /** The pointers to the strings from number `from` on, and nulls after them. */
  function PointerWord(strs: seq<Str>, at: nat, from: nat, j: nat): nat {
    if from + j < |strs| then at + StrAt(strs, from + j) else 0
  }

  function PointerWords(strs: seq<Str>, at: nat, from: nat): nat -> nat {
    (j: nat) => PointerWord(strs, at, from, j)
  }

  /** Reads `count` strings through the pointers from offset `wordAt` on. */
  method Strings(s: seq<byte>, base: nat, wordAt: nat, count: nat, ghost strs: seq<Str>, ghost high: nat, ghost from: nat)
    returns (r: seq<Str>)
    requires from + count <= |strs| && NulFree(strs) && StrsIn(s, high, strs, |strs|)
    requires WordsIn(s, wordAt, PointerWords(strs, base + high, from), count)
    ensures r == strs[from..from + count]
  {
    hide WordsIn, StrsIn, StrAt;
    r := [];
    for j := 0 to count
      invariant r == strs[from..from + j]
    {
      WordIn(s, wordAt, PointerWords(strs, base + high, from), count, j);
      StrIn(s, high, strs, |strs|, from + j);
      var ptr := WordAt(s, wordAt + WORD * j);
      var str := BytesOf(s, ptr - base, strs[from + j]);
      r := r + [str];
    }
  }

  ghost predicate NullAfter(word: nat -> nat, n: nat) {
    word(n) == 0 && forall j :: 0 <= j < n ==> word(j) != 0
  }

  lemma PointersNotNull(strs: seq<Str>, at: nat, from: nat)
    requires from <= |strs| && at > 0
    ensures NullAfter(PointerWords(strs, at, from), |strs| - from)
  {
  }

  /** Counts the words before a null. */
  method CountWords(s: seq<byte>, at: nat, ghost n: nat, ghost word: nat -> nat) returns (count: nat)
    requires WordsIn(s, at, word, n + 1) && NullAfter(word, n)
    ensures count == n
  {
    count := 0;
    WordIn(s, at, word, n + 1, 0);
    var w := WordAt(s, at);
    while w != 0
      invariant count <= n && w == word(count)
      decreases n - count
    {
      count := count + 1;
      WordIn(s, at, word, n + 1, count);
      w := WordAt(s, at + WORD * count);
    }
  }

  /** Words d to d + n are the words of `part`. */
  ghost predicate Agrees(word: nat -> nat, d: nat, part: nat -> nat, n: nat) {
    n == 0 || (Agrees(word, d, part, n - 1) && part(n - 1) == word(d + (n - 1)))
  }

  /** Part of a row of words. */
  lemma {:induction false} WordsPart(s: seq<byte>, low: nat, word: nat -> nat, k: nat, d: nat, part: nat -> nat, n: nat)
    requires WordsIn(s, low, word, k) && d + n <= k && Agrees(word, d, part, n)
    ensures WordsIn(s, low + WORD * d, part, n)
    decreases n
  {
    if n > 0 {
      WordsPart(s, low, word, k, d, part, n - 1);
      WordIn(s, low, word, k, d + (n - 1));
    }
  }

  lemma {:induction false} ArgsAgree(argc: nat, strs: seq<Str>, at: nat, n: nat)
    requires n <= argc <= |strs|
    ensures Agrees(EntryWords(argc, strs, at), 1, PointerWords(strs, at, 0), n)
  {
    if n > 0 {
      ArgsAgree(argc, strs, at, n - 1);
    }
  }

  lemma {:induction false} EnvAgrees(argc: nat, strs: seq<Str>, at: nat, n: nat)
    requires argc <= |strs| && n <= |strs| - argc + 1
    ensures Agrees(EntryWords(argc, strs, at), argc + 2, PointerWords(strs, at, argc), n)
  {
    if n > 0 {
      EnvAgrees(argc, strs, at, n - 1);
    }
  }

  /** The two pointer arrays of an entry stack. */
  lemma Arrays(s: seq<byte>, low: nat, word: nat -> nat, argc: nat, strs: seq<Str>, at: nat)
    requires argc <= |strs| && WordsIn(s, low, word, WordCount(strs)) && word(0) == argc
    requires Agrees(word, 1, PointerWords(strs, at, 0), argc)
    requires Agrees(word, argc + 2, PointerWords(strs, at, argc), |strs| - argc + 1)
    ensures WordIs(s, low, argc)
    ensures WordsIn(s, low + WORD * 1, PointerWords(strs, at, 0), argc)
    ensures WordsIn(s, low + WORD * (argc + 2), PointerWords(strs, at, argc), |strs| - argc + 1)
  {
    hide WordsIn, Agrees, PointerWords, PointerWord;
    var n := WordCount(strs);
    WordIn(s, low, word, n, 0);
    WordsPart(s, low, word, n, 1, PointerWords(strs, at, 0), argc);
    WordsPart(s, low, word, n, argc + 2, PointerWords(strs, at, argc), |strs| - argc + 1);
  }

  lemma {:induction false} WordsFewer(s: seq<byte>, low: nat, word: nat -> nat, k: nat, n: nat)
    requires WordsIn(s, low, word, k) && n <= k
    ensures WordsIn(s, low, word, n)
  {
    if n < k {
      WordsFewer(s, low, word, k - 1, n);
    }
  }

  /** The start code: finds both pointer arrays from the stack pointer, counts the environment by its
  terminating null, and reads the strings. */
  method Start(s: seq<byte>, top: nat, rsp: nat, ghost argv: seq<Str>, ghost envp: seq<Str>) returns (args: seq<Str>, env: seq<Str>)
    requires IsEntryStack(s, top, rsp, |argv|, argv + envp) && NulFree(argv + envp)
    ensures args == argv && env == envp
  {
    hide WordsIn, StrsIn, NulFree, Agrees, PointerWords, PointerWord, StrAt;
    ghost var strs := argv + envp;
    ghost var at: nat := top - StrAt(strs, |strs|);
    var base := top - |s|;
    var sp := rsp - base;
    ArgsAgree(|argv|, strs, at, |argv|);
    EnvAgrees(|argv|, strs, at, |envp| + 1);
    Arrays(s, sp, EntryWords(|argv|, strs, at), |argv|, strs, at);
    args, env := ReadArrays(s, base, sp, |argv|, strs, at);
    assert strs[..|argv|] == argv && strs[|argv|..] == envp;
  }

  method ReadArrays(s: seq<byte>, base: nat, sp: nat, ghost n: nat, ghost strs: seq<Str>, ghost at: nat) returns (args: seq<Str>, env: seq<Str>)
    requires n <= |strs| && NulFree(strs) && base <= at && at > 0 && StrsIn(s, at - base, strs, |strs|) && WordIs(s, sp, n)
    requires WordsIn(s, sp + WORD * 1, PointerWords(strs, at, 0), n)
    requires WordsIn(s, sp + WORD * (n + 2), PointerWords(strs, at, n), |strs| - n + 1)
    ensures args == strs[..n] && env == strs[n..]
  {
    hide WordsIn, StrsIn, NulFree, PointerWords, PointerWord, NullAfter;
    var argc := WordAt(s, sp);
    var envAt := sp + WORD * 1 + WORD * (argc + 1);
    PointersNotNull(strs, at, argc);
    var envc := CountWords(s, envAt, |strs| - argc, PointerWords(strs, at, argc));
    args := Strings(s, base, sp + WORD * 1, argc, strs, at - base, 0);
    WordsFewer(s, envAt, PointerWords(strs, at, argc), |strs| - argc + 1, |strs| - argc);
    env := Strings(s, base, envAt, envc, strs, at - base, argc);
  }
}
