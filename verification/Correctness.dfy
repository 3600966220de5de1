/**
 The compiler as a whole, and the exact limits within which it is right.
 */
module Correctness {
  import opened Common
  import opened Memory
  import opened Isa
  import opened Machine
  import opened Csemantics
  import opened CodeSpec
  import opened SimBase
  import opened SimCalls
  import opened Compile
  import opened Patches
  import opened Codegen
  import opened Encodability

  /**
   Whatever the generator accepts runs as the source says: the words it leaves in the buffer,
   fetched and decoded one by one, take a call of function `j` to the caller with the source's
   value, memory and kernel calls.
   */
  lemma GeneratedCallIsCorrect(pl: Platform, p: Program, j: nat, vals: seq<U64>, env: Env, sp: int, m: Ram, t: Trace, fuel: nat, s: State)
    returns (n: nat, s': State)
    requires Compilable(pl, p) && EntryIndex(p, |p.funcs|) <= BUFFER
    requires forall f :: f in p.funcs ==> |f.params| <= 8
    requires j < |p.funcs| && |vals| <= 8
    requires Room(p.limit, env, sp) && Matches(env, sp, m, t, s)
    requires s.pc == EntryIndex(p, j) && (s.regs[LR] - pl.base) % 4 == 0
    requires forall i :: 0 <= i < |vals| ==> s.regs[i] == vals[i]
    requires Activate(pl, p, p.funcs[j], vals, env.alloc, sp, m, t, fuel).Ok?
    ensures Iterate(FetchStepper(pl, Words(Build(pl, p).code)), s, n) == Some(s')
    ensures var r := Activate(pl, p, p.funcs[j], vals, env.alloc, sp, m, t, fuel);
            && s'.regs[0] == r.v && s'.trace == r.t
            && (forall a :: a in r.m ==> Get(s'.mem, a) == r.m[a])
            && s'.sp == sp && s'.regs[FP] == env.fp && s'.pc == (s.regs[LR] - pl.base) / 4
            && forall a :: a !in env.alloc && !(p.limit <= a < sp) ==> Get(s'.mem, a) == Get(s.mem, a)
  {
    hide Activate, Encodes, CodeFrom, EntryIndex, Names, Iterate, Room, StmtOk, Words, Matches;
    forall f | f in p.funcs ensures |f.params| <= 8 && StmtOk(f.body) {
      var i :| 0 <= i < |p.funcs| && p.funcs[i] == f;
    }
    WordsDecode(pl, p);
    n, s' := CompiledCallIsCorrect(pl, p, Words(Build(pl, p).code), j, vals, env, sp, m, t, fuel, s);
  }

  /** A call of one of the program's functions from machine state `s`, which the source semantics runs to its end. */
  datatype Call = Call(j: nat, vals: seq<U64>, env: Env, sp: int, m: Ram, t: Trace, fuel: nat, s: State)

  ghost predicate Proper(pl: Platform, p: Program, c: Call) {
    && c.j < |p.funcs| && |c.vals| <= 8
    && Room(p.limit, c.env, c.sp) && Matches(c.env, c.sp, c.m, c.t, c.s)
    && c.s.pc == EntryIndex(p, c.j) && (c.s.regs[LR] - pl.base) % 4 == 0
    && (forall i :: 0 <= i < |c.vals| ==> c.s.regs[i] == c.vals[i])
    && Activate(pl, p, p.funcs[c.j], c.vals, c.env.alloc, c.sp, c.m, c.t, c.fuel).Ok?
  }

  /** Running `words` gets back to the caller in `s'`, with the source's value, kernel calls and memory. */
  ghost predicate ReturnsIn(pl: Platform, p: Program, words: seq<Word32>, c: Call, n: nat, s': State)
    requires Proper(pl, p, c)
  {
    var r := Activate(pl, p, p.funcs[c.j], c.vals, c.env.alloc, c.sp, c.m, c.t, c.fuel);
    && Iterate(FetchStepper(pl, words), c.s, n) == Some(s')
    && s'.regs[0] == r.v && s'.trace == r.t
    && (forall a :: a in r.m ==> Get(s'.mem, a) == r.m[a])
    && s'.sp == c.sp && s'.regs[FP] == c.env.fp && s'.pc == (c.s.regs[LR] - pl.base) / 4
    && forall a :: a !in c.env.alloc && !(p.limit <= a < c.sp) ==> Get(s'.mem, a) == Get(c.s.mem, a)
  }

  ghost predicate RunsRight(pl: Platform, p: Program, words: seq<Word32>) {
    forall c :: Proper(pl, p, c) ==> exists n, s' :: ReturnsIn(pl, p, words, c, n, s')
  }

  /** What is asked of a program besides being accepted. */
  ghost predicate WithinLimits(pl: Platform, p: Program) {
    Compilable(pl, p) && FixupsFit(p, |p.funcs|) && !Overruns(p) && forall f :: f in p.funcs ==> |f.params| <= 8
  }

  /**
   From source to run: whenever the generator reports success for a program within the limits, the
   words in its buffer run every call of every function as the source says, `main` at the reported
   place.
   */
  method GenerateCorrectly(pl: Platform, p: Program, bytes: nat) returns (r: Option<nat>, words: seq<Word32>)
    requires Parsed(p) && bytes <= 4 * BUFFER
    ensures !Overruns(p) ==> (r.Some? <==> Accepted(p, bytes / 4, |p.funcs|) && Find(p.funcs, "main", 0) >= 0)
    ensures !Overruns(p) && r.Some? ==> r.value == EntryIndex(p, Find(p.funcs, "main", 0))
    ensures r.Some? && WithinLimits(pl, p) ==> RunsRight(pl, p, words)
  {
    hide Activate, EntryIndex, Iterate, Words, Names, FixupsFit, Compilable, CodeFrom, Find, RunsRight, Overruns;
    var stray, over;
    r, words, stray, over := Generate(pl, p, bytes);
    if r.Some? && WithinLimits(pl, p) {
      BuildRuns(pl, p);
    }
  }

  lemma BuildRuns(pl: Platform, p: Program)
    requires WithinLimits(pl, p) && EntryIndex(p, |p.funcs|) <= BUFFER
    ensures RunsRight(pl, p, Words(Build(pl, p).code))
  {
    hide Activate, EntryIndex, Iterate, Words, Names, FixupsFit, Compilable, CodeFrom, Room, Matches;
    forall c | Proper(pl, p, c) ensures exists n, s' :: ReturnsIn(pl, p, Words(Build(pl, p).code), c, n, s') {
      var n, s' := GeneratedCallIsCorrect(pl, p, c.j, c.vals, c.env, c.sp, c.m, c.t, c.fuel, c.s);
      assert ReturnsIn(pl, p, Words(Build(pl, p).code), c, n, s');
    }
  }

  /**
   The prologue makes room for the locals exactly when the frame has at most 4095 bytes. The
   register form used above that names register 31, which is the zero register there.
   */
  lemma FrameReservedIffSmall(im: Image, s: State, frame: nat) returns (s': State)
    requires frame <= s.sp < TWO64
    requires CodeAt(im.code, s.pc, ReserveCode(frame))
    ensures Reaches(im.pl, im.code, s, s') && s'.pc == s.pc + |ReserveCode(frame)|
    ensures s'.sp == s.sp - frame <==> frame <= 0xFFF
  {
    if frame <= 0xFFF {
      s' := ReserveSim(im, s, frame);
    } else {
      s' := BigFrameNotReserved(im, s, frame);
    }
  }

  /** A member access reaches the member exactly when its offset is at most 4095. */
  lemma MemberReachedIffNear(im: Image, s: State, off: nat) returns (s': State)
    requires 0 < off < TWO64
    requires CodeAt(im.code, s.pc, [AddImm(0, 0, off % 0x1000)])
    ensures Reaches(im.pl, im.code, s, s') && s'.pc == s.pc + 1
    ensures s'.regs[0] == Wrap(s.regs[0] + off) <==> off <= 0xFFF
  {
    At(im.code, s.pc, [AddImm(0, 0, off % 0x1000)], 0);
    s' := Machine.Put(s, 0, Wrap(s.regs[0] + off % 0x1000));
    One(im, s, AddImm(0, 0, off % 0x1000), s');
    WrapCancels(s.regs[0], off % 0x1000, off);
  }

  lemma WrapCancels(a: U64, x: nat, y: nat)
    requires x <= y < TWO64
    ensures Wrap(a + x) == Wrap(a + y) <==> x == y
  {
  }
}
