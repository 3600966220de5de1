/**
 The processor that runs the generated code: registers, SP, flags, memory and a trace of
 the kernel functions that were called.
 */
module Machine {
  import opened Common
  import opened Memory
  import opened Isa

  /** One call into the kernel, as the outside world sees it. */
  datatype Event = Event(addr: U64, args: seq<U64>, result: U64)
  type Trace = seq<Event>

  type Regs = r: seq<U64> | |r| == 31 witness seq(31, _ => 0)

  /**
   Where the code is placed and what surrounds it. `arity` lists the kernel functions by
   address, `answer` is what a kernel function returns (it may depend on everything that
   was called before), and `scratch` is what it leaves in the caller-saved registers.
   */
  datatype Platform = Platform(
    base: U64,
    arity: map<int, nat>,
    answer: (Trace, U64, seq<U64>) -> U64,
    scratch: (Trace, nat) -> U64)

  /** `pc` counts instructions from the start of the code buffer. */
  datatype State = State(regs: Regs, sp: int, pc: int, z: bool, lt: bool, mem: Ram, trace: Trace)

  function X(s: State, r: nat): U64 {
    if r < 31 then s.regs[r] else 0
  }

  function SetX(s: State, r: nat, v: U64): (s': State)
    ensures |s'.regs| == 31
  {
    if r < 31 then s.(regs := s.regs[r := v]) else s
  }

  function Next(s: State): State {
    s.(pc := s.pc + 1)
  }

  function Put(s: State, r: nat, v: U64): State {
    Next(SetX(s, r, v))
  }

  /** Register 31 is SP where an immediate is added or subtracted. */
  function XorSp(s: State, r: nat): int {
    if r == R31 then s.sp else X(s, r)
  }

  function PutXorSp(s: State, r: nat, v: U64): State {
    if r == R31 then Next(s).(sp := v) else Put(s, r, v)
  }

  function Compare(s: State, a: U64, b: U64): State {
    Next(s).(z := a == b, lt := Signed(a) < Signed(b))
  }

  /** `None` for the condition codes the generator never uses. */
  function Holds(s: State, cond: nat): Option<bool> {
    if cond == EQ then Some(s.z)
    else if cond == NE then Some(!s.z)
    else if cond == LT then Some(s.lt)
    else if cond == 10 then Some(!s.lt)
    else if cond == LE then Some(s.z || s.lt)
    else if cond == 12 then Some(!(s.z || s.lt))
    else None
  }

  function CallKernel(pl: Platform, s: State, addr: U64, n: nat): (s': State)
    requires n <= 8
  {
    var args := s.regs[..n];
    var r := pl.answer(s.trace, addr, args);
    var t := s.trace + [Event(addr, args, r)];
    var regs: seq<U64> := seq(31, i requires 0 <= i < 31 =>
      if i == 0 then r else if i <= 18 || i == LR then pl.scratch(t, i) else s.regs[i]);
    Next(s).(regs := regs, trace := t)
  }

  function CallReg(pl: Platform, s: State, target: U64): Option<State> {
    if target in pl.arity then
      if pl.arity[target] <= 8 then Some(CallKernel(pl, s, target, pl.arity[target])) else None
    else if target >= pl.base && (target - pl.base) % 4 == 0 then
      Some(SetX(s, LR, Wrap(pl.base + 4 * (s.pc + 1))).(pc := (target - pl.base) / 4))
    else None
  }

  /** SP-relative accesses fault unless SP is 16-byte aligned. */
  function Execute(pl: Platform, i: Instr, s: State): Option<State> {
    match i
    case Push =>
      if s.sp % 16 != 0 || s.sp < 16 then None
      else Some(Next(s).(sp := s.sp - 16, mem := StoreWord(s.mem, s.sp - 16, X(s, 0))))
    case Pop(r) =>
      if s.sp % 16 != 0 then None
      else Some(Put(s, r, LoadWord(s.mem, s.sp)).(sp := s.sp + 16))
    case AddReg(d, n, m) => Some(Put(s, d, Wrap(X(s, n) + X(s, m))))
    case SubReg(d, n, m) => Some(Put(s, d, Wrap(X(s, n) - X(s, m))))
    case Mul(d, n, m) => Some(Put(s, d, Wrap(X(s, n) * X(s, m))))
    case Sdiv(d, n, m) => Some(Put(s, d, SDiv(X(s, n), X(s, m))))
    case Msub(d, n, m, a) => Some(Put(s, d, Wrap(X(s, a) - X(s, n) * X(s, m))))
    case AddImm(d, n, imm) => Some(PutXorSp(s, d, Wrap(XorSp(s, n) + imm)))
    case SubImm(d, n, imm) => Some(PutXorSp(s, d, Wrap(XorSp(s, n) - imm)))
    case CmpReg(n, m) => Some(Compare(s, X(s, n), X(s, m)))
    case CmpZero(n) => Some(Compare(s, X(s, n), 0))
    case Csinc(d, c) =>
      if Holds(s, c).None? then None
      else Some(Put(s, d, if Holds(s, c).value then 0 else 1))
    case Ldr(t, n) => Some(Put(s, t, LoadWord(s.mem, X(s, n))))
    case Str(t, n) => Some(Next(s).(mem := StoreWord(s.mem, X(s, n), X(s, t))))
    case Ldrb(t, n) => Some(Put(s, t, Get(s.mem, X(s, n))))
    case Strb(t, n) => Some(Next(s).(mem := StoreN(s.mem, X(s, n), X(s, t), 1)))
    case Movz(d, imm) => Some(Put(s, d, Wrap(imm)))
    case Movk(d, imm, hw) => Some(Put(s, d, InsertField(X(s, d), imm, hw)))
    case Blr(n) => CallReg(pl, s, X(s, n))
    case Ret =>
      if (X(s, LR) - pl.base) % 4 != 0 then None
      else Some(s.(pc := (X(s, LR) - pl.base) / 4))
    case StpFrame =>
      if s.sp % 16 != 0 || s.sp < 16 then None
      else Some(Next(s).(sp := s.sp - 16,
                         mem := StoreWord(StoreWord(s.mem, s.sp - 16, X(s, FP)), s.sp - 8, X(s, LR))))
    case LdpFrame =>
      if s.sp % 16 != 0 then None
      else Some(SetX(Put(s, FP, LoadWord(s.mem, s.sp)), LR, LoadWord(s.mem, s.sp + 8)).(sp := s.sp + 16))
    case B(delta) => Some(s.(pc := s.pc + delta))
    case Cbz(delta) => Some(if X(s, 0) == 0 then s.(pc := s.pc + delta) else Next(s))
    case Cbnz(delta) => Some(if X(s, 0) != 0 then s.(pc := s.pc + delta) else Next(s))
    case Bcond(c, delta) =>
      if Holds(s, c).None? then None
      else Some(if Holds(s, c).value then s.(pc := s.pc + delta) else Next(s))
  }

  function FieldUnit(hw: nat): (u: int)
    ensures u > 0
  {
    if hw == 0 then 1 else if hw == 1 then 0x1_0000 else if hw == 2 then 0x1_0000_0000 else 0x1_0000_0000_0000
  }

  /** MOVK replaces one 16-bit field and keeps the other three. */
  function InsertField(v: U64, imm: int, hw: nat): U64 {
    var u := FieldUnit(hw);
    Wrap(v - v / u % 0x10000 * u + imm * u)
  }

  function Step(pl: Platform, code: seq<Instr>, s: State): Option<State> {
    if 0 <= s.pc < |code| then Execute(pl, code[s.pc], s) else None
  }

  function Stepper(pl: Platform, code: seq<Instr>): State -> Option<State> {
    s => Step(pl, code, s)
  }

  function Iterate<S>(step: S -> Option<S>, s: S, n: nat): Option<S>
    decreases n
  {
    if n == 0 then Some(s)
    else match step(s)
      case None => None
      case Some(s1) => Iterate(step, s1, n - 1)
  }

  ghost predicate Leads<S>(step: S -> Option<S>, s: S, s': S) {
    exists n: nat :: Iterate(step, s, n) == Some(s')
  }

  ghost predicate Reaches(pl: Platform, code: seq<Instr>, s: State, s': State) {
    Leads(Stepper(pl, code), s, s')
  }

  lemma {:induction false} IterateThen<S>(step: S -> Option<S>, s: S, m: nat, s1: S, n: nat)
    requires Iterate(step, s, m) == Some(s1)
    ensures Iterate(step, s, m + n) == Iterate(step, s1, n)
    decreases m
  {
    if m > 0 {
      IterateThen(step, step(s).value, m - 1, s1, n);
    }
  }

  lemma LeadsThen<S>(step: S -> Option<S>, s: S, s1: S, s2: S)
    requires Leads(step, s, s1) && Leads(step, s1, s2)
    ensures Leads(step, s, s2)
  {
    var m: nat :| Iterate(step, s, m) == Some(s1);
    var n: nat :| Iterate(step, s1, n) == Some(s2);
    IterateThen(step, s, m, s1, n);
  }

  lemma LeadsSelf<S>(step: S -> Option<S>, s: S)
    ensures Leads(step, s, s)
  {
    assert Iterate(step, s, 0) == Some(s);
  }

  lemma LeadsOne<S>(step: S -> Option<S>, s: S, s1: S)
    requires step(s) == Some(s1)
    ensures Leads(step, s, s1)
  {
    assert Iterate(step, s, 1) == Iterate(step, s1, 0) == Some(s1);
  }

  // ---------- the machine on encoded words ----------

  type Word32 = w: int | 0 <= w < 0x1_0000_0000

  function FetchStep(pl: Platform, words: seq<Word32>, s: State): Option<State> {
    if 0 <= s.pc < |words| then
      match Decode(words[s.pc])
      case None => None
      case Some(i) => Execute(pl, i, s)
    else None
  }

  function FetchStepper(pl: Platform, words: seq<Word32>): State -> Option<State> {
    s => FetchStep(pl, words, s)
  }

  predicate Encodes(words: seq<Word32>, code: seq<Instr>) {
    |words| == |code| && forall i :: 0 <= i < |code| ==> Encodable(code[i]) && words[i] == Encode(code[i])
  }

  lemma FetchStepIsStep(pl: Platform, words: seq<Word32>, code: seq<Instr>, s: State)
    requires Encodes(words, code)
    ensures FetchStep(pl, words, s) == Step(pl, code, s)
  {
    if 0 <= s.pc < |code| {
      DecodeEncode(code[s.pc]);
    }
  }

  lemma {:induction false} SameStepsSameRuns<S(!new)>(f: S -> Option<S>, g: S -> Option<S>, s: S, n: nat)
    requires forall x :: f(x) == g(x)
    ensures Iterate(f, s, n) == Iterate(g, s, n)
    decreases n
  {
    if n > 0 && f(s).Some? {
      SameStepsSameRuns(f, g, f(s).value, n - 1);
    }
  }

  /** Running the encoded words is running the instructions. */
  lemma FetchRunIsRun(pl: Platform, words: seq<Word32>, code: seq<Instr>, s: State, n: nat)
    requires Encodes(words, code)
    ensures Iterate(FetchStepper(pl, words), s, n) == Iterate(Stepper(pl, code), s, n)
  {
    forall x ensures FetchStepper(pl, words)(x) == Stepper(pl, code)(x) {
      FetchStepIsStep(pl, words, code, x);
    }
    SameStepsSameRuns(FetchStepper(pl, words), Stepper(pl, code), s, n);
  }
}
