/** The signal frame on the user stack: handler entry and sigreturn, nested to any depth. */
module SigFrame {
  import opened Bytes
  import opened SignalAbi
  import opened Signals

  const MAGIC := 0x8D2F_FAB8_19E3_EECC
  const FRAME := 640
  const RED_ZONE := 128
  const LOWER_HALF := 0x8000_0000_0000   // addresses below are user addresses
  const BIT_63 := 0x8000_0000_0000_0000
  const RDI := 4                         // r11 r10 r9 r8 rdi rsi rdx rcx rax

  /** The interrupted ring 3 context: what the interrupt frame and the register block hold. */
  datatype Context = Context(rip: nat, rsp: nat, flags: nat, regs: seq<nat>)

  predicate Canonical(a: nat) {
    a < LOWER_HALF || U64 - LOWER_HALF <= a < U64
  }

  ghost predicate ContextOk(c: Context) {
    && Canonical(c.rip) && c.rsp < U64 && c.flags < U64
    && |c.regs| == 9 && forall i :: 0 <= i < 9 ==> c.regs[i] < U64
  }

  /** Sign extension of the low 48 bits. */
  function Truncate(a: nat): nat {
    var low := a % (2 * LOWER_HALF);
    if low < LOWER_HALF then low else low + U64 - 2 * LOWER_HALF
  }

  lemma TruncateCanonical(a: nat)
    requires a < U64
    ensures Truncate(a) == a <==> Canonical(a)
  {
  }

  function Bit(v: nat, weight: nat): nat
    requires weight > 0
  {
    v / weight % 2
  }

  /** (v & 0xDD5) | 0x200: carry, parity, adjust, zero, sign, trap, direction and overflow survive,
  and interrupts are on. */
  function UserFlags(v: nat): nat {
    Bit(v, 1) + 4 * Bit(v, 4) + 16 * Bit(v, 16) + 64 * Bit(v, 64) + 128 * Bit(v, 128) + 256 * Bit(v, 256)
    + 512 + 1024 * Bit(v, 1024) + 2048 * Bit(v, 2048)
  }

  // ------------------------------------------------------------- masks as 64-bit words

  /** Bits i - 1 and up of a mask, as a number. */
  function MaskFrom(m: SigSet, i: nat): nat
    decreases 65 - i
  {
    if i > 64 then 0 else (if i in m then 1 else 0) + 2 * MaskFrom(m, i + 1)
  }

  function Unmask(v: nat, i: nat): SigSet
    requires i >= 1
    decreases 65 - i
  {
    if i > 64 then {} else (if v % 2 == 1 then {i} else {}) + Unmask(v / 2, i + 1)
  }

  function Pow2(n: nat): nat {
    if n == 0 then 1 else 2 * Pow2(n - 1)
  }

  lemma {:induction false} UnmaskFrom(m: SigSet, i: nat)
    requires 1 <= i <= 65
    ensures Unmask(MaskFrom(m, i), i) == set n | n in m && i <= n
    ensures MaskFrom(m, i) < Pow2(65 - i)
    decreases 65 - i
  {
    if i <= 64 {
      UnmaskFrom(m, i + 1);
    }
  }

  function Word(m: SigSet): nat { MaskFrom(m, 1) }

  lemma UnmaskWord(m: SigSet)
    ensures Word(m) < U64 && Unmask(Word(m), 1) == m
  {
    UnmaskFrom(m, 1);
    Pow2Of64();
    assert m == set n | n in m && 1 <= n;
  }

  lemma Pow2Of64()
    ensures Pow2(64) == U64
  {
    assert Pow2(4) == 16;
    Pow2Adds(4, 4);
    Pow2Adds(8, 8);
    Pow2Adds(16, 16);
    Pow2Adds(32, 32);
  }

  lemma {:induction false} Pow2Adds(a: nat, b: nat)
    ensures Pow2(a + b) == Pow2(a) * Pow2(b)
  {
    if a > 0 {
      Pow2Adds(a - 1, b);
      assert Pow2(a + b) == 2 * Pow2(a - 1 + b);
    }
  }

  // ------------------------------------------------------------- the frame image

  /** What sigreturn reads back. */
  datatype Saved = Saved(ctx: Context, oldBlocked: nat, magic: nat)

  /** The part of the frame the context does not determine. */
  datatype Extra = Extra(fx: seq<byte>, fxValid: byte, padding: seq<byte>, signo: nat)

  ghost predicate ExtraOk(x: Extra) {
    |x.fx| == 512 && |x.padding| == 7
  }

  function FrameWords(c: Context, oldBlocked: nat, signo: nat): seq<nat> {
    c.regs + [c.rip, c.flags, c.rsp, oldBlocked, signo]
  }

  function Encode(c: Context, oldBlocked: nat, x: Extra): (s: seq<byte>)
    requires |c.regs| == 9 && |x.fx| == 512 && |x.padding| == 7
    ensures |s| == FRAME
  {
    x.fx + Words(FrameWords(c, oldBlocked, x.signo)) + ([x.fxValid] + x.padding) + Le(MAGIC, 8)
  }

  function WordAt(s: seq<byte>, at: nat): nat
    requires at + 8 <= |s|
  {
    FromLe(s[at..at + 8])
  }

  function Decode(s: seq<byte>): Saved
    requires |s| == FRAME
  {
    Saved(Context(WordAt(s, 584), WordAt(s, 600), WordAt(s, 592), seq(9, i requires 0 <= i < 9 => WordAt(s, 512 + 8 * i))),
          WordAt(s, 608), WordAt(s, 632))
  }

  lemma Middle(a: seq<byte>, b: seq<byte>, c: seq<byte>, i: nat, n: nat)
    requires i + n <= |b|
    ensures (a + b + c)[|a| + i..|a| + i + n] == b[i..i + n]
  {
  }

  lemma ReadBack(ws: seq<nat>, i: nat)
    requires i < |ws| && ws[i] < U64
    ensures FromLe(Words(ws)[8 * i..8 * i + 8]) == ws[i]
  {
    WordsAt(ws, i);
    Pow256Values();
    FromLeLe(ws[i], 8);
  }

  /** Word `i` after the FPU area reads back as it was written. */
  lemma EncodedWord(c: Context, oldBlocked: nat, x: Extra, i: nat)
    requires ContextOk(c) && ExtraOk(x) && i < 14 && FrameWords(c, oldBlocked, x.signo)[i] < U64
    ensures WordAt(Encode(c, oldBlocked, x), 512 + 8 * i) == FrameWords(c, oldBlocked, x.signo)[i]
  {
    var ws := FrameWords(c, oldBlocked, x.signo);
    var rest := [x.fxValid] + x.padding + Le(MAGIC, 8);
    Middle(x.fx, Words(ws), rest, 8 * i, 8);
    assert Encode(c, oldBlocked, x) == x.fx + Words(ws) + rest;
    ReadBack(ws, i);
  }

  lemma EncodedMagic(c: Context, oldBlocked: nat, x: Extra)
    requires ContextOk(c) && ExtraOk(x)
    ensures WordAt(Encode(c, oldBlocked, x), 632) == MAGIC
  {
    var ws := FrameWords(c, oldBlocked, x.signo);
    var before := x.fx + Words(ws) + [x.fxValid] + x.padding;
    assert Encode(c, oldBlocked, x) == before + Le(MAGIC, 8) + [];
    Middle(before, Le(MAGIC, 8), [], 0, 8);
    Pow256Values();
    FromLeLe(MAGIC, 8);
  }

  lemma DecodeEncode(c: Context, oldBlocked: nat, x: Extra)
    requires ContextOk(c) && ExtraOk(x) && oldBlocked < U64
    ensures Decode(Encode(c, oldBlocked, x)) == Saved(c, oldBlocked, MAGIC)
  {
    hide Encode, WordAt;
    var s := Encode(c, oldBlocked, x);
    EncodedMagic(c, oldBlocked, x);
    forall i | 0 <= i < 9 ensures WordAt(s, 512 + 8 * i) == c.regs[i] {
      EncodedWord(c, oldBlocked, x, i);
    }
    EncodedWord(c, oldBlocked, x, 9);
    EncodedWord(c, oldBlocked, x, 10);
    EncodedWord(c, oldBlocked, x, 11);
    EncodedWord(c, oldBlocked, x, 12);
    assert Decode(s).ctx.regs == c.regs;
  }

  // ------------------------------------------------------------- placing the frame

  datatype Placement = At(base: nat) | BadStack | Overflow

  /** Skip the red zone, make room, align; the frame and the return address below it must be user memory. */
  function Place(rsp: nat): Placement
    requires rsp < U64
  {
    var room := (rsp + U64 - RED_ZONE - FRAME) % U64;
    var base := room / 16 * 16;
    if base < 8 then Overflow
    else if base - 8 >= BIT_63 then BadStack
    else if base + FRAME < LOWER_HALF then At(base)
    else BadStack
  }

  lemma PlaceExact(rsp: nat)
    requires rsp < U64
    ensures Place(rsp).At? <==> 784 <= rsp && (rsp - 768) / 16 * 16 + FRAME < LOWER_HALF
    ensures Place(rsp).Overflow? <==> 768 <= rsp < 784
    ensures Place(rsp).At? ==>
      var base := Place(rsp).base;
      base % 16 == 0 && base + FRAME + RED_ZONE <= rsp < base + FRAME + RED_ZONE + 16
  {
  }

  // ------------------------------------------------------------- the two transitions

  /** One entered handler: the context and mask it interrupted, and where its frame is. */
  datatype Level = Level(ctx: Context, blocked: SigSet, base: nat, image: seq<byte>)

  datatype Thread = Thread(ctx: Context, mem: Memory, signals: SigState, levels: seq<Level>)

  function HandlerContext(c: Context, base: nat, n: Signal, a: SigAction): Context
    requires |c.regs| == 9 && base >= 8
  {
    Context(Truncate(a.handler), Truncate(base - 8), c.flags, c.regs[RDI := n])
  }

  /** Entering the handler of `n` with the frame `image` at `base`. */
  function Enter(u: Thread, base: nat, image: seq<byte>, n: Signal, a: SigAction): Thread
    requires |u.ctx.regs| == 9 && u.signals.Valid() && base >= 8
  {
    Thread(HandlerContext(u.ctx, base, n, a),
           Store(Store(u.mem, base - 8, Le(a.restorer, 8)), base, image),
           EnterHandler(u.signals, n, a),
           u.levels + [Level(u.ctx, u.signals.blocked, base, image)])
  }

  datatype Returned = Resumed(ctx: Context, blocked: SigSet) | Killed

  /** sigreturn: `readable` is what the address space says of the frame's pages. */
  function Return(rsp: nat, mem: Memory, readable: bool): Returned {
    if rsp >= BIT_63 || rsp + FRAME >= LOWER_HALF || !readable then Killed
    else
      var saved := Decode(Load(mem, rsp, FRAME));
      if saved.magic != MAGIC then Killed
      else Resumed(Context(Truncate(saved.ctx.rip), Truncate(saved.ctx.rsp), UserFlags(saved.ctx.flags), saved.ctx.regs),
                   Unmask(saved.oldBlocked, 1) - KILL_STOP)
  }

  /** The context a level comes back to: everything as it was, flags up to the fixed mask. */
  function Restored(c: Context): Context {
    c.(rsp := Truncate(c.rsp), flags := UserFlags(c.flags))
  }

  // ------------------------------------------------------------- runs

  datatype Step =
    | DoRun(ctx: Context, mem: Memory)          // user code
    | DoSignals(signals: SigState)              // system calls on the signal state
    | DoEnter(n: Signal, a: SigAction, x: Extra)
    | DoReturn

  ghost predicate SignalsOk(s: SigState) {
    s.Valid() && s.blocked !! KILL_STOP
  }

  function Top(u: Thread): Level
    requires u.levels != []
  {
    u.levels[|u.levels| - 1]
  }

  /** A handler leaves its frame and everything above alone, and its stack pointer stays below. */
  ghost predicate Enabled(u: Thread, e: Step) {
    match e
    case DoRun(ctx, mem) => ContextOk(ctx) && (u.levels != [] ==> SameFrom(u.mem, mem, Top(u).base))
    case DoSignals(signals) => SignalsOk(signals)
    case DoEnter(n, a, x) =>
      && ContextOk(u.ctx) && ExtraOk(x) && u.signals.Valid() && Place(u.ctx.rsp).At?
      && (u.levels != [] ==> u.ctx.rsp <= Top(u).base)
    case DoReturn => u.levels != [] && u.ctx.rsp == Top(u).base
  }

  ghost function Apply(u: Thread, e: Step): Thread
    requires Enabled(u, e)
  {
    match e
    case DoRun(ctx, mem) => u.(ctx := ctx, mem := mem)
    case DoSignals(signals) => u.(signals := signals)
    case DoEnter(n, a, x) => Enter(u, Place(u.ctx.rsp).base, Encode(u.ctx, Word(u.signals.blocked), x), n, a)
    case DoReturn =>
      match Return(u.ctx.rsp, u.mem, true)
      case Killed => u.(levels := [])
      case Resumed(ctx, blocked) =>
        u.(ctx := ctx, signals := u.signals.(blocked := blocked), levels := u.levels[..|u.levels| - 1])
  }

  ghost predicate Next(u: Thread, u': Thread) {
    exists e :: Enabled(u, e) && Apply(u, e) == u'
  }

  /** A run from a thread that is in no handler. */
  ghost predicate IsRun(run: seq<Thread>) {
    && |run| > 0 && run[0].levels == [] && SignalsOk(run[0].signals) && ContextOk(run[0].ctx)
    && forall i :: 0 <= i < |run| - 1 ==> Next(run[i], run[i + 1])
  }

  ghost predicate ImageOk(l: Level) {
    && ContextOk(l.ctx) && l.blocked !! KILL_STOP
    && |l.image| == FRAME && Decode(l.image) == Saved(l.ctx, Word(l.blocked), MAGIC)
  }

  /** The frame is below the interrupted red zone, aligned, in user memory, and as it was written. */
  ghost predicate PlacedOk(mem: Memory, l: Level) {
    && Framed(l.base, l.ctx.rsp)
    && Load(mem, l.base, FRAME) == l.image
  }

  ghost predicate Framed(base: nat, rsp: nat) {
    && base % 16 == 0 && 16 <= base && base + FRAME < LOWER_HALF
    && base + FRAME + RED_ZONE <= rsp < base + FRAME + RED_ZONE + 16
  }

  lemma PlaceFramed(rsp: nat)
    requires rsp < U64 && Place(rsp).At?
    ensures Framed(Place(rsp).base, rsp)
  {
    PlaceExact(rsp);
  }

  ghost predicate StackOk(mem: Memory, levels: seq<Level>) {
    && (forall i :: 0 <= i < |levels| ==> PlacedOk(mem, levels[i]))
    && (forall i, j :: 0 <= i < j < |levels| ==> levels[j].ctx.rsp <= levels[i].base)
  }

  ghost predicate ImagesOk(levels: seq<Level>) {
    forall i :: 0 <= i < |levels| ==> ImageOk(levels[i])
  }

  ghost predicate Inv(u: Thread) {
    SignalsOk(u.signals) && StackOk(u.mem, u.levels) && ImagesOk(u.levels)
  }

  lemma PlacedKept(mem: Memory, mem': Memory, l: Level)
    requires PlacedOk(mem, l) && SameFrom(mem, mem', l.base)
    ensures PlacedOk(mem', l)
  {
    assert Load(mem', l.base, FRAME) == Load(mem, l.base, FRAME);
  }

  /** Writes below `at`, which is no higher than the innermost frame, leave every frame alone. */
  lemma StackKept(mem: Memory, mem': Memory, levels: seq<Level>, at: nat)
    requires StackOk(mem, levels) && (levels != [] ==> at <= levels[|levels| - 1].base) && SameFrom(mem, mem', at)
    ensures StackOk(mem', levels)
  {
    forall i | 0 <= i < |levels| ensures PlacedOk(mem', levels[i]) {
      assert PlacedOk(mem, levels[i]);
      assert levels[|levels| - 1].base <= levels[i].base;
      PlacedKept(mem, mem', levels[i]);
    }
  }

  lemma StackPush(mem: Memory, mem': Memory, levels: seq<Level>, l: Level)
    requires StackOk(mem, levels) && (levels != [] ==> l.ctx.rsp <= levels[|levels| - 1].base)
    requires PlacedOk(mem', l) && SameFrom(mem, mem', l.base + FRAME)
    ensures StackOk(mem', levels + [l])
  {
    StackKept(mem, mem', levels, l.base + FRAME);
    forall i | 0 <= i < |levels| ensures l.ctx.rsp <= levels[i].base {
      assert PlacedOk(mem, levels[|levels| - 1]);
    }
  }

  lemma EnterImage(c: Context, blocked: SigSet, base: nat, x: Extra)
    requires ContextOk(c) && blocked !! KILL_STOP && ExtraOk(x)
    ensures ImageOk(Level(c, blocked, base, Encode(c, Word(blocked), x)))
  {
    UnmaskWord(blocked);
    DecodeEncode(c, Word(blocked), x);
  }

  lemma EnterPlaced(mem: Memory, l: Level, restorer: nat)
    requires Framed(l.base, l.ctx.rsp) && |l.image| == FRAME
    ensures PlacedOk(Store(Store(mem, l.base - 8, Le(restorer, 8)), l.base, l.image), l)
    ensures SameFrom(mem, Store(Store(mem, l.base - 8, Le(restorer, 8)), l.base, l.image), l.base + FRAME)
  {
    LoadStored(Store(mem, l.base - 8, Le(restorer, 8)), l.base, l.image);
  }

  /** The new frame lies below the interrupted red zone, so no older frame is touched. */
  lemma EnterInv(u: Thread, base: nat, image: seq<byte>, n: Signal, a: SigAction)
    requires Inv(u) && Framed(base, u.ctx.rsp) && (u.levels != [] ==> u.ctx.rsp <= Top(u).base)
    requires ImageOk(Level(u.ctx, u.signals.blocked, base, image))
    ensures Inv(Enter(u, base, image, n, a))
  {
    var u' := Enter(u, base, image, n, a);
    var l := Level(u.ctx, u.signals.blocked, base, image);
    EnterPlaced(u.mem, l, a.restorer);
    StackPush(u.mem, u'.mem, u.levels, l);
  }

  lemma ReturnImage(mem: Memory, l: Level)
    requires ImageOk(l) && PlacedOk(mem, l)
    ensures Return(l.base, mem, true) == Resumed(Restored(l.ctx), l.blocked)
  {
    UnmaskWord(l.blocked);
    TruncateCanonical(l.ctx.rip);
    assert l.blocked - KILL_STOP == l.blocked;
  }

  /** A matching sigreturn finds the innermost frame as it was written. */
  lemma ReturnRestores(u: Thread)
    requires Inv(u) && Enabled(u, DoReturn)
    ensures Return(u.ctx.rsp, u.mem, true) == Resumed(Restored(Top(u).ctx), Top(u).blocked)
    ensures Top(u).blocked !! KILL_STOP
  {
    assert ImageOk(Top(u)) && PlacedOk(u.mem, Top(u));
    ReturnImage(u.mem, Top(u));
  }

  lemma StackPop(mem: Memory, levels: seq<Level>)
    requires StackOk(mem, levels) && ImagesOk(levels) && levels != []
    ensures StackOk(mem, levels[..|levels| - 1]) && ImagesOk(levels[..|levels| - 1])
  {
  }

  lemma ReturnInv(u: Thread)
    requires Inv(u) && Enabled(u, DoReturn)
    ensures Inv(Apply(u, DoReturn))
    ensures Apply(u, DoReturn).ctx == Restored(Top(u).ctx)
    ensures Apply(u, DoReturn).signals.blocked == Top(u).blocked
    ensures Apply(u, DoReturn).levels == u.levels[..|u.levels| - 1]
  {
    ReturnRestores(u);
    hide StackOk, ImagesOk, Return;
    StackPop(u.mem, u.levels);
  }

  lemma RunStepInv(u: Thread, ctx: Context, mem: Memory)
    requires Inv(u) && Enabled(u, DoRun(ctx, mem))
    ensures Inv(Apply(u, DoRun(ctx, mem)))
  {
    hide StackOk, ImagesOk, SameFrom, SignalsOk, ContextOk;
    if u.levels == [] {
      NoFrames(mem);
    } else {
      StackKept(u.mem, mem, u.levels, Top(u).base);
    }
  }

  lemma NoFrames(mem: Memory)
    ensures StackOk(mem, [])
  {
  }

  lemma StepInv(u: Thread, e: Step)
    requires Inv(u) && Enabled(u, e)
    ensures Inv(Apply(u, e))
  {
    match e
    case DoRun(ctx, mem) => RunStepInv(u, ctx, mem);
    case DoSignals(_) =>
    case DoEnter(n, a, x) =>
      var base := Place(u.ctx.rsp).base;
      PlaceFramed(u.ctx.rsp);
      EnterImage(u.ctx, u.signals.blocked, base, x);
      EnterInv(u, base, Encode(u.ctx, Word(u.signals.blocked), x), n, a);
    case DoReturn => ReturnInv(u);
  }

  lemma {:induction false} RunInv(run: seq<Thread>, i: nat)
    requires IsRun(run) && i < |run|
    ensures Inv(run[i])
  {
    if i > 0 {
      hide Inv, Enabled, Apply;
      RunInv(run, i - 1);
      assert Next(run[i - 1], run[i - 1 + 1]);
      var e :| Enabled(run[i - 1], e) && Apply(run[i - 1], e) == run[i];
      StepInv(run[i - 1], e);
    }
  }

  // ------------------------------------------------------------- what handlers and interrupted code rely on

  /** Handler entry as the ABI expects it: aligned as after a call into the restorer, with the
  interrupted red zone and everything above it untouched. */
  lemma EntryShape(u: Thread, n: Signal, a: SigAction, x: Extra)
    requires Enabled(u, DoEnter(n, a, x))
    ensures Apply(u, DoEnter(n, a, x)).ctx.rsp % 16 == 8
    ensures Apply(u, DoEnter(n, a, x)).ctx.rsp + 8 + FRAME + RED_ZONE <= u.ctx.rsp
    ensures Load(Apply(u, DoEnter(n, a, x)).mem, Apply(u, DoEnter(n, a, x)).ctx.rsp, 8) == Le(a.restorer, 8)
    ensures SameFrom(u.mem, Apply(u, DoEnter(n, a, x)).mem, u.ctx.rsp - RED_ZONE)
  {
    PlaceFramed(u.ctx.rsp);
    EntryShapeAt(u, Place(u.ctx.rsp).base, Encode(u.ctx, Word(u.signals.blocked), x), n, a);
  }

  lemma EntryMemory(mem: Memory, base: nat, restorer: nat, image: seq<byte>)
    requires base >= 8
    ensures Load(Store(Store(mem, base - 8, Le(restorer, 8)), base, image), base - 8, 8) == Le(restorer, 8)
    ensures SameFrom(mem, Store(Store(mem, base - 8, Le(restorer, 8)), base, image), base + |image|)
  {
    LoadStored(mem, base - 8, Le(restorer, 8));
    LoadApart(Store(mem, base - 8, Le(restorer, 8)), base, image, base - 8, 8);
  }

  lemma EntryShapeAt(u: Thread, base: nat, image: seq<byte>, n: Signal, a: SigAction)
    requires ContextOk(u.ctx) && |image| == FRAME && u.signals.Valid() && Framed(base, u.ctx.rsp)
    ensures Enter(u, base, image, n, a).ctx.rsp == base - 8 && (base - 8) % 16 == 8
    ensures Load(Enter(u, base, image, n, a).mem, base - 8, 8) == Le(a.restorer, 8)
    ensures SameFrom(u.mem, Enter(u, base, image, n, a).mem, u.ctx.rsp - RED_ZONE)
  {
    hide Load, Store, HandlerContext;
    EntryRegisters(u, base, image, n, a);
    EntryMemory(u.mem, base, a.restorer, image);
    SameFromHigher(u.mem, Enter(u, base, image, n, a).mem, base + FRAME, u.ctx.rsp - RED_ZONE);
  }

  lemma SameFromHigher(mem: Memory, mem': Memory, a: nat, b: nat)
    requires SameFrom(mem, mem', a) && a <= b
    ensures SameFrom(mem, mem', b)
  {
  }

  lemma EntryRegisters(u: Thread, base: nat, image: seq<byte>, n: Signal, a: SigAction)
    requires |u.ctx.regs| == 9 && u.signals.Valid() && Framed(base, u.ctx.rsp)
    ensures Enter(u, base, image, n, a).ctx.rsp == base - 8 && (base - 8) % 16 == 8
  {
    hide Load, Store, Truncate;
    Below(base);
  }

  lemma Below(base: nat)
    requires base % 16 == 0 && 16 <= base < LOWER_HALF
    ensures Truncate(base - 8) == base - 8 && (base - 8) % 16 == 8
  {
  }

  /** A step never goes down more than one level, and down only by a return. */
  lemma StepDepth(u: Thread, e: Step)
    requires Inv(u) && Enabled(u, e)
    ensures |Apply(u, e).levels| > |u.levels| ==> e.DoEnter?
    ensures |Apply(u, e).levels| < |u.levels| ==> e.DoReturn?
    ensures u.levels <= Apply(u, e).levels || (u.levels != [] && Apply(u, e).levels == u.levels[..|u.levels| - 1])
  {
    if e.DoReturn? {
      ReturnInv(u);
    }
  }

  lemma PrefixStays<T>(a: seq<T>, b: seq<T>, c: seq<T>)
    requires a <= b && |a| <= |c| && (b <= c || (b != [] && c == b[..|b| - 1]))
    ensures a <= c
  {
  }

  lemma RunDepth(run: seq<Thread>, j: nat)
    requires IsRun(run) && j + 1 < |run|
    ensures run[j].levels <= run[j + 1].levels
         || (run[j].levels != [] && run[j + 1].levels == run[j].levels[..|run[j].levels| - 1])
  {
    hide Inv, Enabled, Apply;
    RunInv(run, j);
    assert Next(run[j], run[j + 1]);
    var e :| Enabled(run[j], e) && Apply(run[j], e) == run[j + 1];
    StepDepth(run[j], e);
  }

  /** While the thread stays inside the handler entered at `i`, that level's record does not change. */
  lemma {:induction false} LevelStays(run: seq<Thread>, i: nat, j: nat)
    requires IsRun(run) && i < j < |run|
    requires forall k :: i < k <= j ==> |run[k].levels| > |run[i].levels|
    requires |run[i + 1].levels| == |run[i].levels| + 1
    ensures run[i + 1].levels <= run[j].levels
    decreases j
  {
    hide IsRun;
    if j > i + 1 {
      LevelStays(run, i, j - 1);
      RunDepth(run, j - 1);
      PrefixStays(run[i + 1].levels, run[j - 1].levels, run[j].levels);
    }
  }

  lemma EnterRecords(u: Thread, u': Thread)
    requires Inv(u) && Next(u, u') && |u'.levels| > |u.levels|
    ensures u'.levels != [] && Top(u').ctx == u.ctx && Top(u').blocked == u.signals.blocked
    ensures u'.levels[..|u'.levels| - 1] == u.levels
    ensures Framed(Top(u').base, u.ctx.rsp) && ContextOk(u.ctx)
  {
    var e :| Enabled(u, e) && Apply(u, e) == u';
    StepDepth(u, e);
    PlaceFramed(u.ctx.rsp);
  }

  lemma ReturnReverts(u: Thread, u': Thread)
    requires Inv(u) && Next(u, u') && |u'.levels| < |u.levels|
    ensures u'.ctx == Restored(Top(u).ctx) && u'.signals.blocked == Top(u).blocked
    ensures u'.levels == u.levels[..|u.levels| - 1]
  {
    var e :| Enabled(u, e) && Apply(u, e) == u';
    StepDepth(u, e);
    ReturnInv(u);
  }

  /** Step `i` enters a handler and step `j` is the return that leaves it, however many handlers
  nest in between: the interrupted context and the blocked mask are back, and so is the stack
  pointer exactly when it was a user address. */
  lemma MatchingReturn(run: seq<Thread>, i: nat, j: nat)
    requires IsRun(run) && i < j < |run| - 1
    requires |run[i + 1].levels| == |run[i].levels| + 1
    requires forall k :: i < k <= j ==> |run[k].levels| > |run[i].levels|
    requires |run[j + 1].levels| == |run[i].levels|
    ensures run[j + 1].ctx.rip == run[i].ctx.rip && run[j + 1].ctx.regs == run[i].ctx.regs
    ensures run[j + 1].ctx.flags == UserFlags(run[i].ctx.flags)
    ensures run[j + 1].ctx.rsp == run[i].ctx.rsp <==> run[i].ctx.rsp < LOWER_HALF
    ensures run[j + 1].signals.blocked == run[i].signals.blocked
    ensures run[j + 1].levels == run[i].levels
  {
    RunInv(run, i);
    RunInv(run, j);
    LevelStays(run, i, j);
    assert Next(run[i], run[i + 1]) && Next(run[j], run[j + 1]);
    EnterRecords(run[i], run[i + 1]);
    ReturnReverts(run[j], run[j + 1]);
    assert run[j].levels == run[i + 1].levels;
    TruncateCanonical(run[i].ctx.rsp);
  }

  /** Entering a handler adds one level, which records what was interrupted. */
  lemma EnterTop(u: Thread, n: Signal, a: SigAction, x: Extra)
    requires Inv(u) && Enabled(u, DoEnter(n, a, x))
    ensures Inv(Apply(u, DoEnter(n, a, x))) && |Apply(u, DoEnter(n, a, x)).levels| == |u.levels| + 1
    ensures var top := Top(Apply(u, DoEnter(n, a, x)));
      top.ctx == u.ctx && top.blocked == u.signals.blocked && Framed(top.base, u.ctx.rsp)
  {
    hide Inv, Encode;
    PlaceFramed(u.ctx.rsp);
    StepInv(u, DoEnter(n, a, x));
  }

  /** From inside a handler the stack pointer goes back to the frame and the handler returns. */
  lemma GoHome(u: Thread, c: Context)
    requires Inv(u) && u.levels != [] && ContextOk(c) && c.rsp == Top(u).base
    ensures Enabled(u, DoRun(c, u.mem)) && Inv(Apply(u, DoRun(c, u.mem)))
    ensures Apply(u, DoRun(c, u.mem)).levels == u.levels && Enabled(Apply(u, DoRun(c, u.mem)), DoReturn)
  {
    hide Inv;
    StepInv(u, DoRun(c, u.mem));
  }

  lemma FourStates(u: Thread, e1: Step, e2: Step, e3: Step) returns (run: seq<Thread>)
    requires IsRun([u]) && Enabled(u, e1) && Enabled(Apply(u, e1), e2) && Enabled(Apply(Apply(u, e1), e2), e3)
    ensures run == [u, Apply(u, e1), Apply(Apply(u, e1), e2), Apply(Apply(Apply(u, e1), e2), e3)] && IsRun(run)
  {
    hide Enabled, Apply;
    run := [u, Apply(u, e1), Apply(Apply(u, e1), e2), Apply(Apply(Apply(u, e1), e2), e3)];
    assert [u][0] == u;
    assert Next(run[0], run[1]) && Next(run[1], run[2]) && Next(run[2], run[3]);
  }

  /** A handler that returns at once: wherever one can be entered, the run above exists. */
  lemma HandlerReturns(u: Thread, n: Signal, a: SigAction, x: Extra) returns (run: seq<Thread>)
    requires IsRun([u]) && Enabled(u, DoEnter(n, a, x))
    ensures IsRun(run) && |run| == 4 && run[0] == u
    ensures |run[1].levels| == |run[2].levels| == 1 && run[3].levels == []
    ensures run[3].ctx == Restored(u.ctx) && run[3].signals.blocked == u.signals.blocked
  {
    InitialInv(u);
    hide Inv, Enabled, Apply, IsRun;
    EnterTop(u, n, a, x);
    var u1 := Apply(u, DoEnter(n, a, x));
    var home := u.ctx.(rsp := Top(u1).base);
    GoHome(u1, home);
    var u2 := Apply(u1, DoRun(home, u1.mem));
    ReturnInv(u2);
    run := FourStates(u, DoEnter(n, a, x), DoRun(home, u1.mem), DoReturn);
  }

  lemma InitialInv(u: Thread)
    requires IsRun([u])
    ensures Inv(u) && u.levels == [] && ContextOk(u.ctx) && SignalsOk(u.signals)
  {
    assert [u][0] == u;
  }

  /** Leaving a handler twice over gives the same flags as leaving it once. */
  lemma FlagsStable(v: nat)
    ensures UserFlags(UserFlags(v)) == UserFlags(v)
  {
    FlagBits(Bit(v, 1), Bit(v, 4), Bit(v, 16), Bit(v, 64), Bit(v, 128), Bit(v, 256), Bit(v, 1024), Bit(v, 2048), UserFlags(v));
  }

  lemma FlagBits(b0: nat, b2: nat, b4: nat, b6: nat, b7: nat, b8: nat, b10: nat, b11: nat, w: nat)
    requires b0 < 2 && b2 < 2 && b4 < 2 && b6 < 2 && b7 < 2 && b8 < 2 && b10 < 2 && b11 < 2
    requires w == b0 + 4 * b2 + 16 * b4 + 64 * b6 + 128 * b7 + 256 * b8 + 512 + 1024 * b10 + 2048 * b11
    ensures Bit(w, 1) == b0 && Bit(w, 4) == b2 && Bit(w, 16) == b4 && Bit(w, 64) == b6
    ensures Bit(w, 128) == b7 && Bit(w, 256) == b8 && Bit(w, 1024) == b10 && Bit(w, 2048) == b11
  {
    assert w / 2048 == b11;
    assert w / 1024 == b10 + 2 * b11;
    assert w / 256 == b8 + 2 + 4 * b10 + 8 * b11;
    assert w / 128 == b7 + 2 * b8 + 4 + 8 * b10 + 16 * b11;
    assert w / 64 == b6 + 2 * b7 + 4 * b8 + 8 + 16 * b10 + 32 * b11;
  }

  /** A stack pointer just past the user half is accepted, and comes back sign-extended. */
  lemma NonCanonicalStackPointer(u: Thread, n: Signal, a: SigAction, x: Extra) returns (run: seq<Thread>)
    requires IsRun([u]) && ExtraOk(x) && LOWER_HALF <= u.ctx.rsp < U64 && Place(u.ctx.rsp).At?
    ensures Place(LOWER_HALF + 8).At?
    ensures IsRun(run) && |run| == 4 && run[0] == u && |run[1].levels| == |run[2].levels| == 1 && run[3].levels == []
    ensures run[3].ctx.rsp != u.ctx.rsp
  {
    CanEnter(u, n, a, x);
    PastUserHalf(u.ctx.rsp);
    hide IsRun, Enabled, Place, Truncate;
    run := HandlerReturns(u, n, a, x);
  }

  lemma CanEnter(u: Thread, n: Signal, a: SigAction, x: Extra)
    requires IsRun([u]) && ExtraOk(x) && u.ctx.rsp < U64 && Place(u.ctx.rsp).At?
    ensures Enabled(u, DoEnter(n, a, x))
  {
    hide Place;
    InitialInv(u);
  }

  lemma PastUserHalf(rsp: nat)
    requires LOWER_HALF <= rsp < U64 && Place(rsp).At?
    ensures Place(LOWER_HALF + 8).At? && Truncate(rsp) != rsp
  {
    PlaceExact(LOWER_HALF + 8);
    PlaceFramed(rsp);
    hide Place;
    TruncateCanonical(rsp);
  }

  // ------------------------------------------------------------- the code that edits the thread

  /** The interrupt frame, register block, user memory and signal state of the current thread. */
  class UserThread {
    var ctx: Context
    var mem: Memory
    const signals: SignalState

    constructor (c: Context, m: Memory)
      ensures ctx == c && mem == m && fresh(signals) && signals.View() == Initial()
    {
      ctx, mem := c, m;
      signals := new SignalState();
    }

    function View(levels: seq<Level>): Thread
      reads this, signals
    {
      Thread(ctx, mem, signals.View(), levels)
    }

    /** Handler entry.  The mask changes before the frame is placed, so it has changed even when
    the stack pointer is bad and the process dies. */
    method EnterHandler(n: Signal, a: SigAction, x: Extra, ghost levels: seq<Level>) returns (p: Placement)
      requires ContextOk(ctx) && ExtraOk(x) && signals.View().Valid()
      modifies this, signals
      ensures p == Place(old(ctx).rsp)
      ensures !p.At? ==> ctx == old(ctx) && mem == old(mem) && signals.View() == Signals.EnterHandler(old(signals.View()), n, a)
      ensures p.At? ==>
        var image := Encode(old(ctx), Word(old(signals.blocked)), x);
        View(levels + [Level(old(ctx), old(signals.blocked), p.base, image)]) == Enter(old(View(levels)), p.base, image, n, a)
    {
      var oldBlocked := signals.ApplyHandlerEntry(n, a);
      p := Place(ctx.rsp);
      if p.At? {
        PlaceExact(ctx.rsp);
        var image := Encode(ctx, Word(oldBlocked), x);
        mem := Store(mem, p.base - 8, Le(a.restorer, 8));
        mem := Store(mem, p.base, image);
        ctx := ctx.(regs := ctx.regs[RDI := n]);
        ctx := ctx.(rip := Truncate(a.handler), rsp := Truncate(p.base - 8));
      }
    }

    method Sigreturn(readable: bool) returns (alive: bool)
      modifies this, signals
      ensures mem == old(mem)
      ensures !alive ==> Return(old(ctx).rsp, mem, readable).Killed? && ctx == old(ctx) && signals.View() == old(signals.View())
      ensures alive ==> Return(old(ctx).rsp, mem, readable) == Resumed(ctx, signals.blocked)
      ensures alive ==> signals.View() == old(signals.View()).(blocked := signals.blocked)
    {
      if ctx.rsp >= BIT_63 || ctx.rsp + FRAME >= LOWER_HALF || !readable {
        return false;
      }
      var saved := Decode(Load(mem, ctx.rsp, FRAME));
      if saved.magic != MAGIC {
        return false;
      }
      ctx := ctx.(regs := saved.ctx.regs);
      ctx := ctx.(rip := Truncate(saved.ctx.rip), rsp := Truncate(saved.ctx.rsp), flags := UserFlags(saved.ctx.flags));
      signals.SetBlockedRaw(Unmask(saved.oldBlocked, 1));
      return true;
    }
  }
}
