/** Argument passing, kernel calls, and function entry and exit. */
module SimCalls {
  import opened Common
  import opened Memory
  import opened Isa
  import opened Machine
  import opened Csyntax
  import opened Csemantics
  import opened CodeSpec
  import opened SimBase
  import opened SimSteps

  /** Of the first `n` arguments, argument `i` waits at `sp - 16 * (i + 1)`. */
  ghost predicate Waiting(vals: seq<U64>, n: nat, sp: int, mem: Ram)
    requires n <= |vals|
  {
    n == 0 || (LoadWord(mem, sp - 16 * n) == vals[n - 1] && Waiting(vals, n - 1, sp, mem))
  }

  lemma {:induction false} WaitingCons(v: U64, vals: seq<U64>, n: nat, sp: int, mem: Ram)
    requires n <= |vals| && LoadWord(mem, sp - 16) == v && Waiting(vals, n, sp - 16, mem)
    ensures Waiting([v] + vals, n + 1, sp, mem)
    decreases n
  {
    if n > 0 {
      WaitingCons(v, vals, n - 1, sp, mem);
    }
  }

  /** The pops put argument `i` into register `i`. */
  lemma {:induction false} PopArgsSim(im: Image, env: Env, sp: int, vals: seq<U64>, n: nat, m: Ram, t: Trace, s: State) returns (s': State)
    requires n <= |vals| <= 8 && Room(im.p.limit, env, sp) && sp - 16 * n >= im.p.limit
    requires Matches(env, sp - 16 * n, m, t, s) && Waiting(vals, n, sp, s.mem)
    requires CodeAt(im.code, s.pc, PopArgs(n))
    ensures Reaches(im.pl, im.code, s, s') && s'.pc == s.pc + n && s'.mem == s.mem
    ensures Matches(env, sp, m, t, s')
    ensures forall i :: 0 <= i < n ==> s'.regs[i] == vals[i]
    ensures forall i :: n <= i < 31 ==> s'.regs[i] == s.regs[i]
    decreases n
  {
    hide Reaches, CodeAt, LoadWord, Agree;
    if n == 0 {
      s' := s;
      Zero(im, s);
    } else {
      Split(im.code, s.pc, [Pop(n - 1)], PopArgs(n - 1));
      At(im.code, s.pc, [Pop(n - 1)], 0);
      var top := sp - 16 * (n - 1);
      assert top - 16 == sp - 16 * n;
      assert Room(im.p.limit, env, top);
      var s1 := PopSim(im, env, top, m, t, s, n - 1, vals[n - 1]);
      s' := PopArgsSim(im, env, sp, vals, n - 1, m, t, s1);
      Chain(im, s, s1, s');
    }
  }

  lemma KernelSim(im: Image, env: Env, sp: int, m: Ram, t: Trace, s: State, a: U64, vals: seq<U64>) returns (s': State)
    requires Matches(env, sp, m, t, s) && CodeAt(im.code, s.pc, LoadImm(9, a) + [Blr(9)])
    requires a in im.pl.arity && im.pl.arity[a] <= |vals| <= 8
    requires forall i :: 0 <= i < |vals| ==> s.regs[i] == vals[i]
    ensures var args := vals[..im.pl.arity[a]];
            var r := im.pl.answer(t, a, args);
            Lands(im, env, sp, s, s', s.pc + 5, m, t + [Event(a, args, r)]) && s'.regs[0] == r
  {
    hide Reaches, CodeAt;
    Split(im.code, s.pc, LoadImm(9, a), [Blr(9)]);
    var s1 := LoadImmRuns(im, s, 9, a);
    At(im.code, s1.pc, [Blr(9)], 0);
    var n := im.pl.arity[a];
    assert s1.regs[..n] == vals[..n];
    s' := CallKernel(im.pl, s1, a, n);
    One(im, s1, Blr(9), s');
    Chain(im, s, s1, s');
  }

  /** BLR to an address inside the code buffer. */
  lemma EnterSim(im: Image, s: State, a: U64, idx: nat) returns (s': State)
    requires a == im.pl.base + 4 * idx && a !in im.pl.arity && im.pl.base + 4 * (s.pc + 5) < TWO64
    requires CodeAt(im.code, s.pc, LoadImm(9, a) + [Blr(9)])
    ensures Reaches(im.pl, im.code, s, s') && s'.pc == idx && s'.regs[LR] == im.pl.base + 4 * (s.pc + 5)
    ensures s'.sp == s.sp && s'.mem == s.mem && s'.trace == s.trace
    ensures forall i :: 0 <= i < 30 && i != 9 ==> s'.regs[i] == s.regs[i]
  {
    hide Reaches, CodeAt;
    Split(im.code, s.pc, LoadImm(9, a), [Blr(9)]);
    var s1 := LoadImmRuns(im, s, 9, a);
    At(im.code, s1.pc, [Blr(9)], 0);
    var lr := im.pl.base + 4 * (s1.pc + 1);
    s' := s1.(regs := s1.regs[LR := lr], pc := idx);
    One(im, s1, Blr(9), s');
    Chain(im, s, s1, s');
  }

  lemma SavedPair(mem: Ram, sp: int, fp: U64, lr: U64)
    ensures var mem' := StoreWord(StoreWord(mem, sp - 16, fp), sp - 8, lr);
            && LoadWord(mem', sp - 16) == fp && LoadWord(mem', sp - 8) == lr
            && forall a :: !(sp - 16 <= a < sp) ==> Get(mem', a) == Get(mem, a)
  {
    var mem1 := StoreWord(mem, sp - 16, fp);
    var mem' := StoreWord(mem1, sp - 8, lr);
    LoadStoreWord(mem, sp - 16, fp);
    LoadStoreWord(mem1, sp - 8, lr);
    LoadNAgree(mem1, mem', sp - 16, 8);
  }

  /** The first two instructions of a function save the caller's frame pointer and return address. */
  lemma SaveSim(im: Image, s: State) returns (s': State)
    requires s.sp % 16 == 0 && 16 <= s.sp < TWO64
    requires CodeAt(im.code, s.pc, [StpFrame, AddImm(FP, R31, 0)])
    ensures Reaches(im.pl, im.code, s, s')
    ensures s' == s.(regs := s.regs[FP := s.sp - 16], pc := s.pc + 2, sp := s.sp - 16,
                     mem := StoreWord(StoreWord(s.mem, s.sp - 16, s.regs[FP]), s.sp - 8, s.regs[LR]))
  {
    hide Reaches, CodeAt, StoreWord;
    var c := [StpFrame, AddImm(FP, R31, 0)];
    At(im.code, s.pc, c, 0);
    At(im.code, s.pc, c, 1);
    var mem' := StoreWord(StoreWord(s.mem, s.sp - 16, s.regs[FP]), s.sp - 8, s.regs[LR]);
    var s1 := s.(sp := s.sp - 16, mem := mem', pc := s.pc + 1);
    One(im, s, StpFrame, s1);
    s' := s1.(regs := s1.regs[FP := s.sp - 16], pc := s.pc + 2);
    One(im, s1, AddImm(FP, R31, 0), s');
    Chain(im, s, s1, s');
  }

  lemma ReserveSim(im: Image, s: State, frame: nat) returns (s': State)
    requires frame <= 0xFFF && frame <= s.sp < TWO64
    requires CodeAt(im.code, s.pc, ReserveCode(frame))
    ensures Reaches(im.pl, im.code, s, s')
    ensures s' == s.(pc := s.pc + |ReserveCode(frame)|, sp := s.sp - frame)
  {
    if frame == 0 {
      s' := s;
      Zero(im, s);
    } else {
      At(im.code, s.pc, ReserveCode(frame), 0);
      s' := s.(pc := s.pc + 1, sp := s.sp - frame);
      One(im, s, SubImm(R31, R31, frame), s');
    }
  }

  /** A frame above 4095 bytes is not reserved at all: register 31 is the zero register in SUB (register). */
  lemma BigFrameNotReserved(im: Image, s: State, frame: nat) returns (s': State)
    requires 0xFFF < frame < TWO64
    requires CodeAt(im.code, s.pc, ReserveCode(frame))
    ensures Reaches(im.pl, im.code, s, s')
    ensures s' == s.(regs := s.regs[9 := frame], pc := s.pc + |ReserveCode(frame)|)
  {
    Split(im.code, s.pc, LoadImm(9, frame), [SubReg(R31, R31, 9)]);
    var s1 := LoadImmRuns(im, s, 9, frame);
    At(im.code, s1.pc, [SubReg(R31, R31, 9)], 0);
    s' := Next(s1);
    One(im, s1, SubReg(R31, R31, 9), s');
    Chain(im, s, s1, s');
  }

  lemma StoreAtSim(im: Image, env: Env, sp: int, ty: Ty, i: nat, m: Ram, t: Trace, s: State) returns (s': State)
    requires Matches(env, sp, m, t, s) && 0 <= s.pc < |im.code| && i < 8
    requires im.code[s.pc] == if ty.Size() == 1 then Strb(i, 9) else Str(i, 9)
    requires Write(ty, s.regs[9], s.regs[i], m, env.alloc).Some?
    ensures Lands(im, env, sp, s, s', s.pc + 1, Write(ty, s.regs[9], s.regs[i], m, env.alloc).value, t)
    ensures s'.regs == s.regs
  {
    var a, v := s.regs[9], s.regs[i];
    WriteAgrees(ty, a, v, m, env.alloc, s.mem, im.p.limit, sp);
    s' := Next(s).(mem := StoreN(s.mem, a, v, if ty.Size() == 1 then 1 else 8));
    One(im, s, im.code[s.pc], s');
  }

  lemma SpillOneSim(im: Image, env: Env, sp: int, slot: Slot, i: nat, m: Ram, t: Trace, s: State) returns (s': State)
    requires i < 8 && Matches(env, sp, m, t, s)
    requires CodeAt(im.code, s.pc, SpillOne(slot, i))
    requires Write(slot.ty, Wrap(env.fp - slot.off), s.regs[i], m, env.alloc).Some?
    ensures Lands(im, env, sp, s, s', s.pc + |SpillOne(slot, i)|, Write(slot.ty, Wrap(env.fp - slot.off), s.regs[i], m, env.alloc).value, t)
    ensures forall j :: 0 <= j < 8 ==> s'.regs[j] == s.regs[j]
  {
    hide Reaches, CodeAt, Write;
    var st := if slot.ty.Size() == 1 then Strb(i, 9) else Str(i, 9);
    Split(im.code, s.pc, SlotAddress(9, Wrap(slot.off)), [st]);
    var s1 := SlotSim(im, s, 9, slot.off);
    At(im.code, s1.pc, [st], 0);
    s' := StoreAtSim(im, env, sp, slot.ty, i, m, t, s1);
    Chain(im, s, s1, s');
  }

  /** Parameters go to their slots. */
  lemma {:induction false} SpillSim(im: Image, slots: seq<Slot>, env: Env, sp: int, vals: seq<U64>, i: nat, m: Ram, t: Trace, s: State) returns (s': State)
    requires i <= |slots| && |vals| <= 8 && Matches(env, sp, m, t, s)
    requires Spill(slots, env.fp, env.alloc, vals, m, i).Some?
    requires CodeAt(im.code, s.pc, SpillCode(slots, i))
    requires forall j :: 0 <= j < |vals| ==> s.regs[j] == vals[j]
    ensures Lands(im, env, sp, s, s', s.pc + |SpillCode(slots, i)|, Spill(slots, env.fp, env.alloc, vals, m, i).value, t)
    decreases |slots| - i
  {
    hide CodeAt, Write, SpillOne, Agree, Kept, Reaches;
    if i == |slots| {
      Stay(im, env, sp, s, m, t);
      return s;
    }
    var m1 := Write(slots[i].ty, Wrap(env.fp - slots[i].off), vals[i], m, env.alloc).value;
    var m2 := Spill(slots, env.fp, env.alloc, vals, m1, i + 1).value;
    Split(im.code, s.pc, SpillOne(slots[i], i), SpillCode(slots, i + 1));
    var s1 := SpillOneSim(im, env, sp, slots[i], i, m, t, s);
    s' := SpillSim(im, slots, env, sp, vals, i + 1, m1, t, s1);
    LandsThen(im, env, sp, s, s1, s', s1.pc, s'.pc, m1, t, m2, t);
    assert |SpillCode(slots, i)| == |SpillOne(slots[i], i)| + |SpillCode(slots, i + 1)|;
  }

  /** The last three instructions give the caller its SP, frame pointer and return address back. */
  lemma LeaveSim(im: Image, s: State, lr: U64, fp: U64) returns (s': State)
    requires CodeAt(im.code, s.pc, [AddImm(R31, FP, 0), LdpFrame, Ret])
    requires s.regs[FP] % 16 == 0 && s.regs[FP] + 16 < TWO64
    requires LoadWord(s.mem, s.regs[FP]) == fp && LoadWord(s.mem, s.regs[FP] + 8) == lr
    requires (lr - im.pl.base) % 4 == 0
    ensures Reaches(im.pl, im.code, s, s')
    ensures s'.pc == (lr - im.pl.base) / 4 && s'.sp == s.regs[FP] + 16 && s'.regs[FP] == fp
    ensures s'.regs[0] == s.regs[0] && s'.trace == s.trace && s'.mem == s.mem
  {
    hide Reaches, CodeAt, LoadWord;
    var c := [AddImm(R31, FP, 0), LdpFrame, Ret];
    At(im.code, s.pc, c, 0);
    At(im.code, s.pc, c, 1);
    At(im.code, s.pc, c, 2);
    var s1 := Next(s).(sp := s.regs[FP]);
    One(im, s, c[0], s1);
    var s2 := s1.(regs := s1.regs[FP := fp][LR := lr], pc := s1.pc + 1, sp := s1.sp + 16);
    One(im, s1, c[1], s2);
    s' := s2.(pc := (lr - im.pl.base) / 4);
    One(im, s2, c[2], s');
    Chain(im, s, s1, s2);
    Chain(im, s, s2, s');
  }

  // ---------- activations ----------

  /** The environment of an activation of `f` called at depth `sp`. */
  function InnerEnv(f: Func, alloc: set<int>, sp: int): Env {
    Env(sp - 16, Offsets(f.locals), alloc + Range(sp - 16 - FrameSize(f.locals), sp - 16))
  }

  lemma InnerRoom(limit: int, f: Func, env: Env, sp: int)
    requires Room(limit, env, sp) && limit <= sp - 16 - FrameSize(f.locals)
    ensures Room(limit, InnerEnv(f, env.alloc, sp), sp - 16 - FrameSize(f.locals))
  {
  }

  /** What an activation keeps, its caller keeps too, and the saved pair above the frame survives. */
  lemma OuterKept(limit: int, f: Func, env: Env, sp: int, mem: Ram, mem': Ram)
    requires Room(limit, env, sp) && limit <= sp - 16 - FrameSize(f.locals)
    requires Kept(InnerEnv(f, env.alloc, sp).alloc, limit, sp - 16 - FrameSize(f.locals), mem, mem')
    ensures Kept(env.alloc, limit, sp, mem, mem')
    ensures LoadWord(mem', sp - 16) == LoadWord(mem, sp - 16) && LoadWord(mem', sp - 8) == LoadWord(mem, sp - 8)
  {
    hide LoadWord, FrameSize;
    InnerIs(f, env, sp);
    forall a | sp - 16 <= a < sp ensures Get(mem, a) == Get(mem', a) {
      assert a !in env.alloc;
    }
    WordsAgree(mem, mem', sp);
  }

  lemma InnerIs(f: Func, env: Env, sp: int)
    ensures forall a :: a in InnerEnv(f, env.alloc, sp).alloc <==> a in env.alloc || sp - 16 - FrameSize(f.locals) <= a < sp - 16
  {
  }

  lemma WordsAgree(mem: Ram, mem': Ram, sp: int)
    requires forall a :: sp - 16 <= a < sp ==> Get(mem, a) == Get(mem', a)
    ensures LoadWord(mem', sp - 16) == LoadWord(mem, sp - 16) && LoadWord(mem', sp - 8) == LoadWord(mem, sp - 8)
  {
    LoadNAgree(mem, mem', sp - 16, 8);
    LoadNAgree(mem, mem', sp - 8, 8);
  }

  ghost predicate Saved(sp: int, fp: int, lr: int, mem: Ram) {
    LoadWord(mem, sp - 16) == fp && LoadWord(mem, sp - 8) == lr
  }

  /** Frame pointer and return address saved, frame reserved; parameters still in registers. */
  lemma FrameSim(im: Image, f: Func, env: Env, sp: int, m: Ram, t: Trace, s: State) returns (s': State)
    requires Room(im.p.limit, env, sp) && Matches(env, sp, m, t, s)
    requires im.p.limit <= sp - 16 - FrameSize(f.locals) && FrameSize(f.locals) <= 0xFFF
    requires CodeAt(im.code, s.pc, [StpFrame, AddImm(FP, R31, 0)] + ReserveCode(FrameSize(f.locals)))
    ensures Reaches(im.pl, im.code, s, s') && s'.pc == s.pc + 2 + |ReserveCode(FrameSize(f.locals))|
    ensures Matches(InnerEnv(f, env.alloc, sp), sp - 16 - FrameSize(f.locals), m, t, s')
    ensures Kept(env.alloc, im.p.limit, sp, s.mem, s'.mem)
    ensures Saved(sp, s.regs[FP], s.regs[LR], s'.mem)
    ensures forall i :: 0 <= i < 8 ==> s'.regs[i] == s.regs[i]
  {
    hide Reaches, CodeAt, StoreWord, LoadWord, ReserveCode;
    var frame := FrameSize(f.locals);
    Split(im.code, s.pc, [StpFrame, AddImm(FP, R31, 0)], ReserveCode(frame));
    SavedPair(s.mem, sp, s.regs[FP], s.regs[LR]);
    var s1 := SaveSim(im, s);
    s' := ReserveSim(im, s1, frame);
    Chain(im, s, s1, s');
  }

  lemma HeadSim(im: Image, f: Func, vals: seq<U64>, env: Env, sp: int, m: Ram, t: Trace, s: State) returns (s': State)
    requires Room(im.p.limit, env, sp) && Matches(env, sp, m, t, s) && |vals| <= 8
    requires im.p.limit <= sp - 16 - FrameSize(f.locals) && FrameSize(f.locals) <= 0xFFF
    requires CodeAt(im.code, s.pc, HeadCode(f))
    requires forall i :: 0 <= i < |vals| ==> s.regs[i] == vals[i]
    requires Spill(ParamSlots(f), sp - 16, InnerEnv(f, env.alloc, sp).alloc, vals, m, 0).Some?
    ensures Reaches(im.pl, im.code, s, s') && s'.pc == s.pc + |HeadCode(f)|
    ensures var inner := InnerEnv(f, env.alloc, sp);
            Matches(inner, sp - 16 - FrameSize(f.locals), Spill(ParamSlots(f), sp - 16, inner.alloc, vals, m, 0).value, t, s')
    ensures Kept(env.alloc, im.p.limit, sp, s.mem, s'.mem)
    ensures Saved(sp, s.regs[FP], s.regs[LR], s'.mem)
  {
    hide Reaches, CodeAt, LoadWord, ReserveCode, Agree, Spill, SpillCode, ParamSlots;
    var frame := FrameSize(f.locals);
    var inner := InnerEnv(f, env.alloc, sp);
    var low := sp - 16 - frame;
    Split(im.code, s.pc, [StpFrame, AddImm(FP, R31, 0)] + ReserveCode(frame), SpillCode(ParamSlots(f), 0));
    var s1 := FrameSim(im, f, env, sp, m, t, s);
    s' := SpillSim(im, ParamSlots(f), inner, low, vals, 0, m, t, s1);
    OuterKept(im.p.limit, f, env, sp, s1.mem, s'.mem);
    Chain(im, s, s1, s');
    KeptThen(env.alloc, im.p.limit, sp, s.mem, s1.mem, s'.mem);
  }

  /** Back in the caller: its registers, its stack, its memory without the frame. */
  lemma ExitSim(im: Image, f: Func, env: Env, sp: int, m: Ram, t: Trace, lr: U64, s: State) returns (s': State)
    requires Room(im.p.limit, env, sp) && im.p.limit <= sp - 16 - FrameSize(f.locals)
    requires Matches(InnerEnv(f, env.alloc, sp), sp - 16 - FrameSize(f.locals), m, t, s)
    requires CodeAt(im.code, s.pc, [AddImm(R31, FP, 0), LdpFrame, Ret])
    requires Saved(sp, env.fp, lr, s.mem) && (lr - im.pl.base) % 4 == 0
    ensures Reaches(im.pl, im.code, s, s') && s'.pc == (lr - im.pl.base) / 4
    ensures s'.regs[0] == s.regs[0] && s'.mem == s.mem
    ensures Matches(env, sp, Restrict(m, env.alloc), t, s')
  {
    hide Reaches, CodeAt, LoadWord;
    s' := LeaveSim(im, s, lr, env.fp);
  }
}
