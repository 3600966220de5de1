/**
 The AArch64 instructions the code generator emits: their 32-bit encodings, a decoder,
 and the machine that executes them.
 */
module Isa {
  import opened Common

  /** Condition codes, by their architectural numbers. */
  const EQ: nat := 0
  const NE: nat := 1
  const LT: nat := 11
  const LE: nat := 13

  const FP: nat := 29
  const LR: nat := 30
  /** Register number 31: the zero register in register-register forms, SP in immediate forms. */
  const R31: nat := 31

  datatype Instr =
    | Push                                             // str x0, [sp, #-16]!
    | Pop(r: nat)                                      // ldr xr, [sp], #16
    | AddReg(d: nat, n: nat, m: nat)
    | SubReg(d: nat, n: nat, m: nat)
    | Mul(d: nat, n: nat, m: nat)
    | Sdiv(d: nat, n: nat, m: nat)
    | Msub(d: nat, n: nat, m: nat, a: nat)             // d = a - n * m
    | AddImm(d: nat, n: nat, imm: nat)
    | SubImm(d: nat, n: nat, imm: nat)
    | CmpReg(n: nat, m: nat)
    | CmpZero(n: nat)
    | Csinc(d: nat, cond: nat)                         // d = cond ? 0 : 1
    | Ldr(t: nat, n: nat)
    | Str(t: nat, n: nat)
    | Ldrb(t: nat, n: nat)
    | Strb(t: nat, n: nat)
    | Movz(d: nat, imm: nat)
    | Movk(d: nat, imm: nat, hw: nat)
    | Blr(n: nat)
    | Ret
    | StpFrame                                         // stp x29, x30, [sp, #-16]!
    | LdpFrame                                         // ldp x29, x30, [sp], #16
    | B(delta: int)
    | Cbz(delta: int)                                  // on x0
    | Cbnz(delta: int)                                 // on x0
    | Bcond(cond: nat, delta: int)

  predicate Reg(r: nat) { r < 32 }

  /** The field values that fit the instruction format. */
  predicate Encodable(i: Instr) {
    match i
    case Push => true
    case Pop(r) => Reg(r)
    case AddReg(d, n, m) => Reg(d) && Reg(n) && Reg(m)
    case SubReg(d, n, m) => Reg(d) && Reg(n) && Reg(m)
    case Mul(d, n, m) => Reg(d) && Reg(n) && Reg(m)
    case Sdiv(d, n, m) => Reg(d) && Reg(n) && Reg(m)
    case Msub(d, n, m, a) => Reg(d) && Reg(n) && Reg(m) && Reg(a)
    case AddImm(d, n, imm) => Reg(d) && Reg(n) && imm < 0x1000
    case SubImm(d, n, imm) => Reg(d) && Reg(n) && imm < 0x1000
    case CmpReg(n, m) => Reg(n) && Reg(m)
    case CmpZero(n) => Reg(n)
    case Csinc(d, c) => Reg(d) && c < 16
    case Ldr(t, n) => Reg(t) && Reg(n)
    case Str(t, n) => Reg(t) && Reg(n)
    case Ldrb(t, n) => Reg(t) && Reg(n)
    case Strb(t, n) => Reg(t) && Reg(n)
    case Movz(d, imm) => Reg(d) && imm < 0x10000
    case Movk(d, imm, hw) => Reg(d) && imm < 0x10000 && hw < 4
    case Blr(n) => Reg(n)
    case Ret => true
    case StpFrame => true
    case LdpFrame => true
    case B(delta) => -0x2000000 <= delta < 0x2000000
    case Cbz(delta) => Fits19(delta)
    case Cbnz(delta) => Fits19(delta)
    case Bcond(c, delta) => c < 16 && Fits19(delta)
  }

  predicate Fits19(delta: int) { -0x40000 <= delta < 0x40000 }

  /** Each word is its opcode plus fields that occupy disjoint bits. */
  function Encode(i: Instr): (w: nat)
    requires Encodable(i)
    ensures w < 0x1_0000_0000
  {
    match i
    case Push => 0xF81F0FE0
    case Pop(r) => 0xF84107E0 + r
    case AddReg(d, n, m) => 0x8B000000 + m * 0x10000 + n * 0x20 + d
    case SubReg(d, n, m) => 0xCB000000 + m * 0x10000 + n * 0x20 + d
    case Mul(d, n, m) => 0x9B000000 + m * 0x10000 + 0x1F * 0x400 + n * 0x20 + d
    case Sdiv(d, n, m) => 0x9AC00C00 + m * 0x10000 + n * 0x20 + d
    case Msub(d, n, m, a) => 0x9B008000 + m * 0x10000 + a * 0x400 + n * 0x20 + d
    case AddImm(d, n, imm) => 0x91000000 + imm * 0x400 + n * 0x20 + d
    case SubImm(d, n, imm) => 0xD1000000 + imm * 0x400 + n * 0x20 + d
    case CmpReg(n, m) => 0xEB000000 + m * 0x10000 + n * 0x20 + 0x1F
    case CmpZero(n) => 0xF100001F + n * 0x20
    case Csinc(d, c) => 0x9A9F07E0 + c * 0x1000 + d
    case Ldr(t, n) => 0xF9400000 + n * 0x20 + t
    case Str(t, n) => 0xF9000000 + n * 0x20 + t
    case Ldrb(t, n) => 0x39400000 + n * 0x20 + t
    case Strb(t, n) => 0x39000000 + n * 0x20 + t
    case Movz(d, imm) => 0xD2800000 + imm * 0x20 + d
    case Movk(d, imm, hw) => 0xF2800000 + hw * 0x200000 + imm * 0x20 + d
    case Blr(n) => 0xD63F0000 + n * 0x20
    case Ret => 0xD65F03C0
    case StpFrame => 0xA9BF7BFD
    case LdpFrame => 0xA8C17BFD
    case B(delta) => 0x14000000 + delta % 0x4000000
    case Cbz(delta) => 0xB4000000 + delta % 0x80000 * 0x20
    case Cbnz(delta) => 0xB5000000 + delta % 0x80000 * 0x20
    case Bcond(c, delta) => 0x54000000 + delta % 0x80000 * 0x20 + c
  }

  function Rd(w: nat): nat { w % 0x20 }
  function Rn(w: nat): nat { w / 0x20 % 0x20 }
  function Rm(w: nat): nat { w / 0x10000 % 0x20 }
  function Imm12(w: nat): nat { w / 0x400 % 0x1000 }
  function Imm16(w: nat): nat { w / 0x20 % 0x10000 }
  function Sign(x: nat, half: nat): int { if x < half then x else x - 2 * half }

  /** What the processor makes of a word; `None` for words outside this subset. */
  function Decode(w: nat): Option<Instr>
    requires w < 0x1_0000_0000
  {
    var top := w / 0x1000000;
    if top == 0x14 || top == 0x15 || top == 0x16 || top == 0x17 then Some(B(Sign(w % 0x4000000, 0x2000000)))
    else if top == 0xB4 || top == 0xB5 || top == 0x54 then DecodeBranch(top, w)
    else if top == 0x8B || top == 0xCB || top == 0xEB || top == 0x9B || top == 0x9A then DecodeReg(top, w)
    else if top == 0x91 || top == 0xD1 || top == 0xD2 || top == 0xF2 || top == 0xF1 then DecodeImm(top, w)
    else if top == 0xF9 || top == 0x39 then DecodeMem(top, w)
    else if top == 0xF8 then
      if w == 0xF81F0FE0 then Some(Push)
      else if w / 0x20 == 0xF84107E0 / 0x20 then Some(Pop(Rd(w)))
      else None
    else if top == 0xD6 then
      if w == 0xD65F03C0 then Some(Ret)
      else if w / 0x400 == 0xD63F0000 / 0x400 && Rd(w) == 0 then Some(Blr(Rn(w)))
      else None
    else if w == 0xA9BF7BFD then Some(StpFrame)
    else if w == 0xA8C17BFD then Some(LdpFrame)
    else None
  }

  function DecodeBranch(top: nat, w: nat): Option<Instr> {
    var delta := Sign(w / 0x20 % 0x80000, 0x40000);
    if top == 0x54 then
      if w / 0x10 % 2 == 0 then Some(Bcond(w % 0x10, delta)) else None
    else if Rd(w) != 0 then None
    else if top == 0xB4 then Some(Cbz(delta))
    else Some(Cbnz(delta))
  }

  function DecodeReg(top: nat, w: nat): Option<Instr> {
    var group := w / 0x200000 % 8;
    var op := w / 0x400 % 0x40;
    if top == 0x9A then
      if group == 6 && op == 3 then Some(Sdiv(Rd(w), Rn(w), Rm(w)))
      else if group == 4 && Rm(w) == 31 && op % 4 == 1 && Rn(w) == 31 then Some(Csinc(Rd(w), op / 4))
      else None
    else if group != 0 then None
    else if top == 0x9B then
      if op >= 32 then Some(Msub(Rd(w), Rn(w), Rm(w), op - 32))
      else if op == 31 then Some(Mul(Rd(w), Rn(w), Rm(w)))
      else None
    else if op != 0 then None
    else if top == 0x8B then Some(AddReg(Rd(w), Rn(w), Rm(w)))
    else if top == 0xCB then Some(SubReg(Rd(w), Rn(w), Rm(w)))
    else if Rd(w) == 31 then Some(CmpReg(Rn(w), Rm(w)))
    else None
  }

  function DecodeImm(top: nat, w: nat): Option<Instr> {
    var shift := w / 0x400000 % 4;
    if top == 0xD2 then
      if w / 0x200000 % 8 == 4 then Some(Movz(Rd(w), Imm16(w))) else None
    else if top == 0xF2 then
      if w / 0x800000 % 2 == 1 then Some(Movk(Rd(w), Imm16(w), w / 0x200000 % 4)) else None
    else if shift != 0 then None
    else if top == 0x91 then Some(AddImm(Rd(w), Rn(w), Imm12(w)))
    else if top == 0xD1 then Some(SubImm(Rd(w), Rn(w), Imm12(w)))
    else if Imm12(w) == 0 && Rd(w) == 31 then Some(CmpZero(Rn(w)))
    else None
  }

  function DecodeMem(top: nat, w: nat): Option<Instr> {
    var op := w / 0x400000 % 4;
    if Imm12(w) != 0 then None
    else if top == 0xF9 then
      if op == 1 then Some(Ldr(Rd(w), Rn(w))) else if op == 0 then Some(Str(Rd(w), Rn(w))) else None
    else
      if op == 1 then Some(Ldrb(Rd(w), Rn(w))) else if op == 0 then Some(Strb(Rd(w), Rn(w))) else None
  }

  /** Register-register words fall apart into their fields. */
  lemma RegFields(top: nat, group: nat, m: nat, op: nat, n: nat, d: nat)
    requires group < 8 && Reg(m) && op < 0x40 && Reg(n) && Reg(d)
    ensures var w := top * 0x1000000 + group * 0x200000 + m * 0x10000 + op * 0x400 + n * 0x20 + d;
            w / 0x1000000 == top && w / 0x200000 % 8 == group && Rm(w) == m && w / 0x400 % 0x40 == op && Rn(w) == n && Rd(w) == d
  {
    var w := top * 0x1000000 + group * 0x200000 + m * 0x10000 + op * 0x400 + n * 0x20 + d;
    assert w / 0x20 == top * 0x80000 + group * 0x10000 + m * 0x800 + op * 0x20 + n;
    assert w / 0x400 == top * 0x4000 + group * 0x800 + m * 0x40 + op;
    assert w / 0x10000 == top * 0x100 + group * 0x20 + m;
    assert w / 0x200000 == top * 8 + group;
  }

  /** Words with a 12-bit immediate fall apart into their fields. */
  lemma ImmFields(top: nat, shift: nat, imm: nat, n: nat, d: nat)
    requires shift < 4 && imm < 0x1000 && Reg(n) && Reg(d)
    ensures var w := top * 0x1000000 + shift * 0x400000 + imm * 0x400 + n * 0x20 + d;
            w / 0x1000000 == top && w / 0x400000 % 4 == shift && Imm12(w) == imm && Rn(w) == n && Rd(w) == d
  {
    var w := top * 0x1000000 + shift * 0x400000 + imm * 0x400 + n * 0x20 + d;
    assert w / 0x20 == top * 0x80000 + shift * 0x20000 + imm * 0x20 + n;
    assert w / 0x400 == top * 0x4000 + shift * 0x1000 + imm;
    assert w / 0x400000 == top * 4 + shift;
  }

  lemma DecodeReg3(i: Instr)
    requires Encodable(i)
    requires i.AddReg? || i.SubReg? || i.CmpReg?
    ensures Decode(Encode(i)) == Some(i)
  {
    hide DecodeBranch, DecodeImm, DecodeMem;
    match i
    case AddReg(d, n, m) => RegFields(0x8B, 0, m, 0, n, d);
    case SubReg(d, n, m) => RegFields(0xCB, 0, m, 0, n, d);
    case CmpReg(n, m) => RegFields(0xEB, 0, m, 0, n, 31);
  }

  lemma DecodeReg4(i: Instr)
    requires Encodable(i)
    requires i.Mul? || i.Msub?
    ensures Decode(Encode(i)) == Some(i)
  {
    hide DecodeBranch, DecodeImm, DecodeMem;
    match i
    case Mul(d, n, m) => RegFields(0x9B, 0, m, 31, n, d);
    case Msub(d, n, m, a) => RegFields(0x9B, 0, m, 32 + a, n, d);
  }

  lemma DecodeSdiv(i: Instr)
    requires Encodable(i) && i.Sdiv?
    ensures Decode(Encode(i)) == Some(i)
  {
    RegFields(0x9A, 6, i.m, 3, i.n, i.d);
  }

  lemma DecodeCsinc(i: Instr)
    requires Encodable(i) && i.Csinc?
    ensures Decode(Encode(i)) == Some(i)
  {
    RegFields(0x9A, 4, 31, 4 * i.cond + 1, 31, i.d);
  }

  lemma DecodeImm12(i: Instr)
    requires Encodable(i)
    requires i.AddImm? || i.SubImm? || i.CmpZero?
    ensures Decode(Encode(i)) == Some(i)
  {
    hide DecodeBranch, DecodeReg, DecodeMem;
    match i
    case AddImm(d, n, imm) => ImmFields(0x91, 0, imm, n, d);
    case SubImm(d, n, imm) => ImmFields(0xD1, 0, imm, n, d);
    case CmpZero(n) => ImmFields(0xF1, 0, 0, n, 31);
  }

  lemma DecodeAccess(i: Instr)
    requires Encodable(i)
    requires i.Ldr? || i.Str? || i.Ldrb? || i.Strb?
    ensures Decode(Encode(i)) == Some(i)
  {
    hide DecodeBranch, DecodeReg, DecodeImm;
    match i
    case Ldr(t, n) => ImmFields(0xF9, 1, 0, n, t);
    case Str(t, n) => ImmFields(0xF9, 0, 0, n, t);
    case Ldrb(t, n) => ImmFields(0x39, 1, 0, n, t);
    case Strb(t, n) => ImmFields(0x39, 0, 0, n, t);
  }

  lemma MoveQuotients(top: nat, hw: nat, imm: nat, d: nat)
    requires hw < 4 && imm < 0x10000 && Reg(d)
    ensures var w := top * 0x1000000 + 0x800000 + hw * 0x200000 + imm * 0x20 + d;
            w / 0x1000000 == top && w / 0x20 == (top * 8 + 4 + hw) * 0x10000 + imm && Rd(w) == d
    ensures var w := top * 0x1000000 + 0x800000 + hw * 0x200000 + imm * 0x20 + d;
            w / 0x200000 == top * 8 + 4 + hw && w / 0x800000 == top * 2 + 1
  {
  }

  lemma ModHalf(q: nat, r: nat)
    requires r < 0x10000
    ensures (q * 0x10000 + r) % 0x10000 == r
  {
  }

  lemma ModEight(q: nat, r: nat)
    requires r < 8
    ensures (q * 8 + r) % 8 == r
  {
  }

  lemma ModFour(q: nat, r: nat)
    requires r < 4
    ensures (q * 4 + r) % 4 == r
  {
  }

  lemma MoveFields(top: nat, hw: nat, imm: nat, d: nat)
    requires hw < 4 && imm < 0x10000 && Reg(d)
    ensures var w := top * 0x1000000 + 0x800000 + hw * 0x200000 + imm * 0x20 + d;
            w / 0x1000000 == top && Imm16(w) == imm && Rd(w) == d
    ensures var w := top * 0x1000000 + 0x800000 + hw * 0x200000 + imm * 0x20 + d;
            w / 0x200000 % 8 == 4 + hw && w / 0x200000 % 4 == hw && w / 0x800000 % 2 == 1
  {
    hide Rd;
    MoveQuotients(top, hw, imm, d);
    ModHalf(top * 8 + 4 + hw, imm);
    ModEight(top, 4 + hw);
    ModFour(2 * top + 1, hw);
  }

  lemma DecodesToMovz(w: nat, d: nat, imm: nat)
    requires w < 0x1_0000_0000 && w / 0x1000000 == 0xD2 && w / 0x200000 % 8 == 4 && Imm16(w) == imm && Rd(w) == d
    ensures Decode(w) == Some(Movz(d, imm))
  {
    hide Rd, Rn, Rm, Imm12, Imm16, DecodeBranch, DecodeReg, DecodeMem;
  }

  lemma DecodesToMovk(w: nat, d: nat, imm: nat, hw: nat)
    requires w < 0x1_0000_0000 && w / 0x1000000 == 0xF2 && w / 0x800000 % 2 == 1 && w / 0x200000 % 4 == hw && Imm16(w) == imm && Rd(w) == d
    ensures Decode(w) == Some(Movk(d, imm, hw))
  {
    hide Rd, Rn, Rm, Imm12, Imm16, DecodeBranch, DecodeReg, DecodeMem;
  }

  lemma DecodeMove(i: Instr)
    requires Encodable(i)
    requires i.Movz? || i.Movk?
    ensures Decode(Encode(i)) == Some(i)
  {
    hide Rd, Imm16, Decode;
    var w := Encode(i);
    if i.Movz? {
      MoveFields(0xD2, 0, i.imm, i.d);
      DecodesToMovz(w, i.d, i.imm);
    } else {
      MoveFields(0xF2, i.hw, i.imm, i.d);
      DecodesToMovk(w, i.d, i.imm, i.hw);
    }
  }

  lemma SignExtends(delta: int)
    ensures -0x2000000 <= delta < 0x2000000 ==> Sign(delta % 0x4000000, 0x2000000) == delta
    ensures Fits19(delta) ==> Sign(delta % 0x80000, 0x40000) == delta
  {
  }

  lemma DecodeB(i: Instr)
    requires Encodable(i) && i.B?
    ensures Decode(Encode(i)) == Some(i)
  {
    SignExtends(i.delta);
    var f := i.delta % 0x4000000;
    assert Encode(i) / 0x1000000 == 0x14 + f / 0x1000000;
  }

  lemma BranchFields(top: nat, f: nat, c: nat)
    requires f < 0x80000 && c < 16
    ensures var w := top * 0x1000000 + f * 0x20 + c;
            w / 0x1000000 == top && w / 0x20 % 0x80000 == f && w % 0x20 == c && w % 0x10 == c && w / 0x10 % 2 == 0
  {
    var w := top * 0x1000000 + f * 0x20 + c;
    assert w / 0x20 == top * 0x80000 + f;
    assert w / 0x10 == top * 0x100000 + f * 2;
  }

  lemma DecodeBranches(i: Instr)
    requires Encodable(i)
    requires i.Cbz? || i.Cbnz? || i.Bcond?
    ensures Decode(Encode(i)) == Some(i)
  {
    SignExtends(i.delta);
    match i
    case Cbz(delta) => BranchFields(0xB4, delta % 0x80000, 0);
    case Cbnz(delta) => BranchFields(0xB5, delta % 0x80000, 0);
    case Bcond(c, delta) => BranchFields(0x54, delta % 0x80000, c);
  }

  /** Every emitted word, patched branches included, decodes to the instruction that was meant. */
  lemma DecodeEncode(i: Instr)
    requires Encodable(i)
    ensures Decode(Encode(i)) == Some(i)
  {
    if i.AddReg? || i.SubReg? || i.CmpReg? {
      DecodeReg3(i);
    } else if i.Mul? || i.Msub? {
      DecodeReg4(i);
    } else if i.Sdiv? {
      DecodeSdiv(i);
    } else if i.Csinc? {
      DecodeCsinc(i);
    } else if i.AddImm? || i.SubImm? || i.CmpZero? {
      DecodeImm12(i);
    } else if i.Ldr? || i.Str? || i.Ldrb? || i.Strb? {
      DecodeAccess(i);
    } else if i.Movz? || i.Movk? {
      DecodeMove(i);
    } else if i.B? {
      DecodeB(i);
    } else if i.Cbz? || i.Cbnz? || i.Bcond? {
      DecodeBranches(i);
    }
  }
}
