/** What the instruction sequences for loads, stores, operators and calls do. */
module SimSteps {
  import opened Common
  import opened Memory
  import opened Isa
  import opened Machine
  import opened Csyntax
  import opened Csemantics
  import opened CodeSpec
  import opened SimBase

  lemma WrapMinusWrapped(a: int, b: int)
    ensures Wrap(a - Wrap(b)) == Wrap(a - b)
  {
    var k := b / TWO64;
    assert b == Wrap(b) + TWO64 * k;
    WrapShift(a - b, k);
  }

  /** The offset is an immediate. */
  lemma ShortSlot(im: Image, s: State, r: nat, off: U64) returns (s': State)
    requires r < 29 && off <= 0xFFF && 0 <= s.pc < |im.code| && im.code[s.pc] == SubImm(r, FP, off)
    ensures Reaches(im.pl, im.code, s, s')
    ensures s' == s.(regs := s.regs[r := Wrap(s.regs[FP] - off)], pc := s.pc + 1)
  {
    hide Reaches;
    s' := s.(regs := s.regs[r := Wrap(s.regs[FP] - off)], pc := s.pc + 1);
    One(im, s, SubImm(r, FP, off), s');
  }

  /** The offset goes through x9. */
  lemma LongSlot(im: Image, s: State, r: nat, off: U64) returns (s': State)
    requires r == 0 || r == 9
    requires CodeAt(im.code, s.pc, LoadImm(9, off) + [SubReg(r, FP, 9)])
    ensures Reaches(im.pl, im.code, s, s')
    ensures s' == s.(regs := s.regs[9 := off][r := Wrap(s.regs[FP] - off)], pc := s.pc + 5)
  {
    hide Reaches, CodeAt, LoadImm;
    Split(im.code, s.pc, LoadImm(9, off), [SubReg(r, FP, 9)]);
    var s1 := LoadImmRuns(im, s, 9, off);
    At(im.code, s1.pc, [SubReg(r, FP, 9)], 0);
    s' := s1.(regs := s1.regs[r := Wrap(s.regs[FP] - off)], pc := s1.pc + 1);
    One(im, s1, SubReg(r, FP, 9), s');
    Chain(im, s, s1, s');
  }

  /** `r = x29 - off` in either form. */
  lemma SlotSim(im: Image, s: State, r: nat, off: int) returns (s': State)
    requires r == 0 || r == 9
    requires CodeAt(im.code, s.pc, SlotAddress(r, Wrap(off)))
    ensures Reaches(im.pl, im.code, s, s') && s'.pc == s.pc + |SlotAddress(r, Wrap(off))|
    ensures s'.regs[r] == Wrap(s.regs[FP] - off) && RegsOnly(s, s')
    ensures forall i :: 0 <= i < 31 && i != r && i != 9 ==> s'.regs[i] == s.regs[i]
  {
    hide Reaches, CodeAt, LoadImm;
    WrapMinusWrapped(s.regs[FP], off);
    if Wrap(off) <= 0xFFF {
      At(im.code, s.pc, [SubImm(r, FP, Wrap(off))], 0);
      s' := ShortSlot(im, s, r, Wrap(off));
    } else {
      s' := LongSlot(im, s, r, Wrap(off));
    }
  }

  lemma ConstSim(im: Image, env: Env, sp: int, m: Ram, t: Trace, s: State, v: U64) returns (s': State)
    requires Matches(env, sp, m, t, s) && CodeAt(im.code, s.pc, LoadImm(0, v))
    ensures Lands(im, env, sp, s, s', s.pc + 4, m, t) && s'.regs[0] == v
  {
    s' := LoadImmRuns(im, s, 0, v);
  }

  lemma ReadAgrees(m: Ram, mem: Ram, a: U64)
    requires Agree(m, mem) && Covers(m.Keys, a, 8)
    ensures LoadWord(mem, a) == LoadWord(m, a)
  {
    forall x | a <= x < a + 8 ensures Get(m, x) == Get(mem, x) {
      assert x in m.Keys;
    }
    LoadNAgree(m, mem, a, 8);
  }

  lemma LoadSim(im: Image, env: Env, sp: int, ty: Ty, m: Ram, t: Trace, s: State) returns (s': State)
    requires Matches(env, sp, m, t, s) && CodeAt(im.code, s.pc, LoadCode(ty))
    requires Read(ty, s.regs[0], m).Some?
    ensures Lands(im, env, sp, s, s', s.pc + |LoadCode(ty)|, m, t)
    ensures s'.regs[0] == Read(ty, s.regs[0], m).value
  {
    hide Reaches, CodeAt, LoadWord;
    var a := s.regs[0];
    if ty.Array? {
      s' := s;
      Zero(im, s);
    } else {
      At(im.code, s.pc, LoadCode(ty), 0);
      var v := Read(ty, a, m).value;
      s' := s.(regs := s.regs[0 := v], pc := s.pc + 1);
      if ty.Size() != 1 {
        ReadAgrees(m, s.mem, a);
      }
      One(im, s, LoadCode(ty)[0], s');
    }
  }

  /** Both sides store the same bytes, so they still agree. */
  lemma WriteAgrees(ty: Ty, a: U64, v: U64, m: Ram, alloc: set<int>, mem: Ram, limit: int, sp: int)
    requires Write(ty, a, v, m, alloc).Some?
    requires m.Keys <= alloc && Agree(m, mem)
    ensures var m' := Write(ty, a, v, m, alloc).value;
            var mem' := StoreN(mem, a, v, if ty.Size() == 1 then 1 else 8);
            m'.Keys <= alloc && Agree(m', mem') && Kept(alloc, limit, sp, mem, mem')
  {
    var n := if ty.Size() == 1 then 1 else 8;
    var m' := StoreN(m, a, v, n);
    var mem' := StoreN(mem, a, v, n);
    forall x | x in m' ensures Get(mem', x) == m'[x] {
      assert m'[x] == Get(m', x);
      if !(a <= x < a + n) {
        assert Get(m', x) == Get(m, x);
      }
    }
  }

  lemma StoreSim(im: Image, env: Env, sp: int, ty: Ty, m: Ram, t: Trace, s: State) returns (s': State)
    requires Matches(env, sp, m, t, s) && CodeAt(im.code, s.pc, StoreCode(ty))
    requires Write(ty, s.regs[1], s.regs[0], m, env.alloc).Some?
    ensures Lands(im, env, sp, s, s', s.pc + |StoreCode(ty)|, Write(ty, s.regs[1], s.regs[0], m, env.alloc).value, t)
    ensures s'.regs[0] == s.regs[0]
  {
    At(im.code, s.pc, StoreCode(ty), 0);
    var a, v := s.regs[1], s.regs[0];
    WriteAgrees(ty, a, v, m, env.alloc, s.mem, im.p.limit, sp);
    s' := Next(s).(mem := StoreN(s.mem, a, v, if ty.Size() == 1 then 1 else 8));
    One(im, s, StoreCode(ty)[0], s');
  }

  lemma CsetSim(im: Image, s: State, cond: nat) returns (s': State)
    requires cond == EQ || cond == NE || cond == LT || cond == LE
    requires CodeAt(im.code, s.pc, Cset(cond))
    ensures Reaches(im.pl, im.code, s, s') && RegsOnly(s, s') && s'.pc == s.pc + 1
    ensures s'.regs[0] == if Holds(s, cond) == Some(true) then 1 else 0
  {
    At(im.code, s.pc, Cset(cond), 0);
    s' := s.(regs := s.regs[0 := if Holds(s, cond) == Some(true) then 1 else 0], pc := s.pc + 1);
    One(im, s, Cset(cond)[0], s');
  }

  lemma CompareSim(im: Image, s: State, cond: nat) returns (s': State)
    requires cond == EQ || cond == NE || cond == LT || cond == LE
    requires CodeAt(im.code, s.pc, [CmpReg(0, 1)] + Cset(cond))
    ensures Reaches(im.pl, im.code, s, s') && RegsOnly(s, s') && s'.pc == s.pc + 2
    ensures s'.regs[0] == if Holds(Compare(s, s.regs[0], s.regs[1]), cond) == Some(true) then 1 else 0
  {
    Split(im.code, s.pc, [CmpReg(0, 1)], Cset(cond));
    At(im.code, s.pc, [CmpReg(0, 1)], 0);
    var s1 := Compare(s, s.regs[0], s.regs[1]);
    One(im, s, CmpReg(0, 1), s1);
    s' := CsetSim(im, s1, cond);
    Chain(im, s, s1, s');
  }

  lemma ModSim(im: Image, s: State) returns (s': State)
    requires CodeAt(im.code, s.pc, OpCode(Mod))
    ensures Reaches(im.pl, im.code, s, s') && RegsOnly(s, s') && s'.pc == s.pc + 2
    ensures s'.regs[0] == SRem(s.regs[0], s.regs[1])
  {
    var a, b := s.regs[0], s.regs[1];
    At(im.code, s.pc, OpCode(Mod), 0);
    At(im.code, s.pc, OpCode(Mod), 1);
    var s1 := Put(s, 2, SDiv(a, b));
    One(im, s, Sdiv(2, 0, 1), s1);
    s' := Put(s1, 0, Wrap(a - SDiv(a, b) * b));
    One(im, s1, Msub(0, 2, 1, 0), s');
    Chain(im, s, s1, s');
    RemainderByMsub(a, b);
  }

  lemma ArithSim(im: Image, s: State, op: BinOp) returns (s': State)
    requires op == Add || op == Sub || op == BinOp.Mul || op == Div
    requires CodeAt(im.code, s.pc, OpCode(op))
    ensures Reaches(im.pl, im.code, s, s') && RegsOnly(s, s') && s'.pc == s.pc + 1
    ensures s'.regs[0] == Apply(op, s.regs[0], s.regs[1])
  {
    At(im.code, s.pc, OpCode(op), 0);
    s' := Put(s, 0, Apply(op, s.regs[0], s.regs[1]));
    One(im, s, OpCode(op)[0], s');
  }

  lemma OpSim(im: Image, env: Env, sp: int, op: BinOp, m: Ram, t: Trace, s: State) returns (s': State)
    requires Matches(env, sp, m, t, s) && CodeAt(im.code, s.pc, OpCode(op))
    ensures Lands(im, env, sp, s, s', s.pc + |OpCode(op)|, m, t)
    ensures s'.regs[0] == Apply(op, s.regs[0], s.regs[1])
  {
    match op
    case Mod => s' := ModSim(im, s);
    case Eq => s' := CompareSim(im, s, EQ);
    case Ne => s' := CompareSim(im, s, NE);
    case Lt => s' := CompareSim(im, s, LT);
    case Le => s' := CompareSim(im, s, LE);
    case _ => s' := ArithSim(im, s, op);
  }

  lemma NegSim(im: Image, env: Env, sp: int, m: Ram, t: Trace, s: State) returns (s': State)
    requires Matches(env, sp, m, t, s) && CodeAt(im.code, s.pc, [SubReg(0, R31, 0)])
    ensures Lands(im, env, sp, s, s', s.pc + 1, m, t)
    ensures s'.regs[0] == Negate(s.regs[0])
  {
    At(im.code, s.pc, [SubReg(0, R31, 0)], 0);
    s' := Put(s, 0, Negate(s.regs[0]));
    One(im, s, SubReg(0, R31, 0), s');
  }

  lemma NotSim(im: Image, env: Env, sp: int, m: Ram, t: Trace, s: State) returns (s': State)
    requires Matches(env, sp, m, t, s) && CodeAt(im.code, s.pc, [CmpZero(0)] + Cset(EQ))
    ensures Lands(im, env, sp, s, s', s.pc + 2, m, t)
    ensures s'.regs[0] == if s.regs[0] == 0 then 1 else 0
  {
    Split(im.code, s.pc, [CmpZero(0)], Cset(EQ));
    At(im.code, s.pc, [CmpZero(0)], 0);
    var s1 := Compare(s, s.regs[0], 0);
    One(im, s, CmpZero(0), s1);
    s' := CsetSim(im, s1, EQ);
    Chain(im, s, s1, s');
  }

  /** The offset of a member, when it fits the immediate field. */
  lemma OffsetSim(im: Image, env: Env, sp: int, off: nat, m: Ram, t: Trace, s: State) returns (s': State)
    requires Matches(env, sp, m, t, s) && off <= 0xFFF
    requires CodeAt(im.code, s.pc, if off == 0 then [] else [AddImm(0, 0, off % 0x1000)])
    ensures Lands(im, env, sp, s, s', s.pc + (if off == 0 then 0 else 1), m, t)
    ensures s'.regs[0] == Wrap(s.regs[0] + off)
  {
    if off == 0 {
      s' := s;
      Zero(im, s);
    } else {
      At(im.code, s.pc, [AddImm(0, 0, off)], 0);
      s' := Put(s, 0, Wrap(s.regs[0] + off));
      One(im, s, AddImm(0, 0, off), s');
    }
  }

  /** One branch instruction, taken or not. */
  lemma BranchSim(im: Image, env: Env, sp: int, m: Ram, t: Trace, s: State, i: Instr) returns (s': State)
    requires Matches(env, sp, m, t, s) && 0 <= s.pc < |im.code| && im.code[s.pc] == i
    requires i.B? || i.Cbz? || i.Cbnz?
    ensures var taken := i.B? || (i.Cbz? && s.regs[0] == 0) || (i.Cbnz? && s.regs[0] != 0);
            Lands(im, env, sp, s, s', s.pc + (if taken then i.delta else 1), m, t)
    ensures s'.regs == s.regs
  {
    var taken := i.B? || (i.Cbz? && s.regs[0] == 0) || (i.Cbnz? && s.regs[0] != 0);
    s' := s.(pc := s.pc + if taken then i.delta else 1);
    One(im, s, i, s');
  }

  lemma SetSim(im: Image, env: Env, sp: int, m: Ram, t: Trace, s: State, v: nat) returns (s': State)
    requires Matches(env, sp, m, t, s) && 0 <= s.pc < |im.code| && im.code[s.pc] == Movz(0, v) && v < 2
    ensures Lands(im, env, sp, s, s', s.pc + 1, m, t) && s'.regs[0] == v
  {
    s' := MovzRuns(im, s, 0, v);
  }

  /** Common end of `&&` and `||`: `[test, set, B(2), set]` with x0 just computed. */
  lemma TailSim(im: Image, env: Env, sp: int, m: Ram, t: Trace, s: State, isAnd: bool, c: Code) returns (s': State)
    requires c == if isAnd then [Cbz(3), Movz(0, 1), B(2), Movz(0, 0)] else [Cbnz(3), Movz(0, 0), B(2), Movz(0, 1)]
    requires Matches(env, sp, m, t, s) && CodeAt(im.code, s.pc, c)
    ensures Lands(im, env, sp, s, s', s.pc + 4, m, t)
    ensures s'.regs[0] == if s.regs[0] == 0 then 0 else 1
  {
    At(im.code, s.pc, c, 0);
    At(im.code, s.pc, c, 1);
    At(im.code, s.pc, c, 2);
    At(im.code, s.pc, c, 3);
    var s1 := BranchSim(im, env, sp, m, t, s, c[0]);
    var s2 := SetSim(im, env, sp, m, t, s1, if s.regs[0] == 0 then 0 else 1);
    LandsThen(im, env, sp, s, s1, s2, s1.pc, s2.pc, m, t, m, t);
    if s1.pc == s.pc + 1 {
      s' := BranchSim(im, env, sp, m, t, s2, c[2]);
      LandsThen(im, env, sp, s, s2, s', s2.pc, s'.pc, m, t, m, t);
    } else {
      s' := s2;
    }
  }

  /** Where a decided `&&` or `||` lands: on its last instruction. */
  lemma ShortSim(im: Image, env: Env, sp: int, m: Ram, t: Trace, s: State, isAnd: bool, n: nat) returns (s': State)
    requires Matches(env, sp, m, t, s) && 0 <= s.pc && s.pc + n + 4 < |im.code|
    requires im.code[s.pc] == if isAnd then Cbz(n + 4) else Cbnz(n + 4)
    requires im.code[s.pc + n + 4] == Movz(0, if isAnd then 0 else 1)
    requires isAnd <==> s.regs[0] == 0
    ensures Lands(im, env, sp, s, s', s.pc + n + 5, m, t)
    ensures s'.regs[0] == if isAnd then 0 else 1
  {
    var s1 := BranchSim(im, env, sp, m, t, s, im.code[s.pc]);
    s' := SetSim(im, env, sp, m, t, s1, if isAnd then 0 else 1);
    LandsThen(im, env, sp, s, s1, s', s1.pc, s'.pc, m, t, m, t);
  }
}
