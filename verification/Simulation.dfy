/**
 The generated code does what the program means: every construct, from any corresponding
 pair of states, by induction on fuel and on the tree.
 */
module Simulation {
  import opened Common
  import opened Memory
  import opened Isa
  import opened Machine
  import opened Csyntax
  import opened Csemantics
  import opened CodeSpec
  import opened SimBase
  import opened SimSteps
  import opened SimCalls

  ghost predicate Start(im: Image, k: Ctx, env: Env, sp: int, m: Ram, t: Trace, s: State) {
    && Linked(im)
    && k == Ctx(env.offs, im.names, im.p.externs, im.p.tick)
    && Room(im.p.limit, env, sp)
    && Matches(env, sp, m, t, s)
  }

  /** `gen_addr`: x0 ends up holding the address. */
  lemma {:induction false} AddressSim(im: Image, k: Ctx, e: Expr, env: Env, sp: int, m: Ram, t: Trace, fuel: nat, s: State) returns (s': State)
    requires Start(im, k, env, sp, m, t, s) && ExprOk(e)
    requires CodeAt(im.code, s.pc, AddressCode(e, k))
    requires Address(im.pl, im.p, e, env, sp, m, t, fuel).Ok?
    ensures var r := Address(im.pl, im.p, e, env, sp, m, t, fuel);
            Lands(im, env, sp, s, s', s.pc + |AddressCode(e, k)|, r.m, r.t) && s'.regs[0] == r.v
    decreases fuel, e, 0
  {
    hide Linked, CodeAt, Reaches;
    match e
    case VarRef(Global(a), _) =>
      s' := ConstSim(im, env, sp, m, t, s, a);
    case VarRef(Local(i), _) =>
      s' := SlotSim(im, s, 0, k.offs[i]);
    case StrLit(a) =>
      s' := ConstSim(im, env, sp, m, t, s, a);
    case Deref(p, _) =>
      s' := ExprSim(im, k, p, env, sp, m, t, fuel, s);
    case Member(_, _, _) =>
      s' := MemberSim(im, k, e, env, sp, m, t, fuel, s);
  }

  lemma {:induction false} MemberSim(im: Image, k: Ctx, e: Expr, env: Env, sp: int, m: Ram, t: Trace, fuel: nat, s: State) returns (s': State)
    requires e.Member? && Start(im, k, env, sp, m, t, s) && ExprOk(e)
    requires CodeAt(im.code, s.pc, AddressCode(e, k))
    requires Address(im.pl, im.p, e, env, sp, m, t, fuel).Ok?
    ensures var r := Address(im.pl, im.p, e, env, sp, m, t, fuel);
            Lands(im, env, sp, s, s', s.pc + |AddressCode(e, k)|, r.m, r.t) && s'.regs[0] == r.v
    decreases fuel, e, -1
  {
    hide Linked, CodeAt, Reaches;
    var obj, off := e.obj, e.off;
    var tail := if off == 0 then [] else [AddImm(0, 0, off % 0x1000)];
    var r := Address(im.pl, im.p, obj, env, sp, m, t, fuel);
    Split(im.code, s.pc, AddressCode(obj, k), tail);
    var s1 := AddressSim(im, k, obj, env, sp, m, t, fuel, s);
    s' := OffsetSim(im, env, sp, off, r.m, r.t, s1);
    LandsThen(im, env, sp, s, s1, s', s1.pc, s'.pc, r.m, r.t, r.m, r.t);
  }

  /** Address, then the load its type calls for. */
  lemma FetchSim(im: Image, env: Env, sp: int, ty: Ty, r: Outcome<U64>, s: State, s1: State) returns (s': State)
    requires r.Ok? && Fetch(ty, r).Ok?
    requires Lands(im, env, sp, s, s1, s1.pc, r.m, r.t) && s1.regs[0] == r.v
    requires CodeAt(im.code, s1.pc, LoadCode(ty))
    ensures Lands(im, env, sp, s, s', s1.pc + |LoadCode(ty)|, r.m, r.t) && s'.regs[0] == Fetch(ty, r).v
    ensures Fetch(ty, r).m == r.m && Fetch(ty, r).t == r.t
  {
    s' := LoadSim(im, env, sp, ty, r.m, r.t, s1);
    LandsThen(im, env, sp, s, s1, s', s1.pc, s'.pc, r.m, r.t, r.m, r.t);
  }

  /** `gen_expr`: x0 ends up holding the value; SP, the frame pointer and everything pending are as before. */
  lemma {:induction false} ExprSim(im: Image, k: Ctx, e: Expr, env: Env, sp: int, m: Ram, t: Trace, fuel: nat, s: State) returns (s': State)
    requires Start(im, k, env, sp, m, t, s) && ExprOk(e)
    requires CodeAt(im.code, s.pc, ExprCode(e, k))
    requires Eval(im.pl, im.p, e, env, sp, m, t, fuel).Ok?
    ensures var r := Eval(im.pl, im.p, e, env, sp, m, t, fuel);
            Lands(im, env, sp, s, s', s.pc + |ExprCode(e, k)|, r.m, r.t) && s'.regs[0] == r.v
    decreases fuel, e, 2
  {
    hide Linked, Room, Matches, Lands, CodeAt, LoadImm, Address, BinaryCode, AssignCode, CallCode, AndCode, OrCode, CallTarget;
    match e
    case Num(n) =>
      s' := ConstSim(im, env, sp, m, t, s, n);
    case StrLit(a) =>
      s' := ConstSim(im, env, sp, m, t, s, a);
    case AddrOf(obj) =>
      s' := AddressSim(im, k, obj, env, sp, m, t, fuel, s);
    case Assign(d, v) =>
      s' := AssignSim(im, k, d, v, env, sp, m, t, fuel, s);
    case Binary(op, x, y) =>
      s' := BinarySim(im, k, op, x, y, env, sp, m, t, fuel, s);
    case LogAnd(x, y) =>
      s' := LogicSim(im, k, true, x, y, env, sp, m, t, fuel, s);
    case LogOr(x, y) =>
      s' := LogicSim(im, k, false, x, y, env, sp, m, t, fuel, s);
    case Call(name, args) =>
      s' := CallSim(im, k, name, args, env, sp, m, t, fuel, s);
    case Neg(_) =>
      s' := SignSim(im, k, e, env, sp, m, t, fuel, s);
    case Not(_) =>
      s' := SignSim(im, k, e, env, sp, m, t, fuel, s);
    case _ =>
      s' := ReadSim(im, k, e, env, sp, m, t, fuel, s);
  }

  lemma {:induction false} ReadSim(im: Image, k: Ctx, e: Expr, env: Env, sp: int, m: Ram, t: Trace, fuel: nat, s: State) returns (s': State)
    requires e.VarRef? || e.Deref? || e.Member?
    requires Start(im, k, env, sp, m, t, s) && ExprOk(e)
    requires CodeAt(im.code, s.pc, ExprCode(e, k))
    requires Eval(im.pl, im.p, e, env, sp, m, t, fuel).Ok?
    ensures var r := Eval(im.pl, im.p, e, env, sp, m, t, fuel);
            Lands(im, env, sp, s, s', s.pc + |ExprCode(e, k)|, r.m, r.t) && s'.regs[0] == r.v
    decreases fuel, e, 1
  {
    hide AddressCode, Address;
    hide Linked, Room, Matches, CodeAt, Reaches, Kept, Read, LoadCode;
    if e.Deref? {
      Split(im.code, s.pc, ExprCode(e.ptr, k), LoadCode(e.ty));
      var s1 := ExprSim(im, k, e.ptr, env, sp, m, t, fuel, s);
      s' := FetchSim(im, env, sp, e.ty, Eval(im.pl, im.p, e.ptr, env, sp, m, t, fuel), s, s1);
      return;
    }
    Split(im.code, s.pc, AddressCode(e, k), LoadCode(e.ty));
    var s1 := AddressSim(im, k, e, env, sp, m, t, fuel, s);
    s' := FetchSim(im, env, sp, e.ty, Address(im.pl, im.p, e, env, sp, m, t, fuel), s, s1);
  }

  lemma {:induction false} SignSim(im: Image, k: Ctx, e: Expr, env: Env, sp: int, m: Ram, t: Trace, fuel: nat, s: State) returns (s': State)
    requires e.Neg? || e.Not?
    requires Start(im, k, env, sp, m, t, s) && ExprOk(e)
    requires CodeAt(im.code, s.pc, ExprCode(e, k))
    requires Eval(im.pl, im.p, e, env, sp, m, t, fuel).Ok?
    ensures var r := Eval(im.pl, im.p, e, env, sp, m, t, fuel);
            Lands(im, env, sp, s, s', s.pc + |ExprCode(e, k)|, r.m, r.t) && s'.regs[0] == r.v
    decreases fuel, e, 1
  {
    hide Linked, Room, CodeAt, Reaches, Kept, Agree;
    var x := e.arg;
    var r := Eval(im.pl, im.p, x, env, sp, m, t, fuel);
    var tail := if e.Neg? then [SubReg(0, R31, 0)] else [CmpZero(0)] + Cset(EQ);
    assert ExprCode(e, k) == ExprCode(x, k) + tail;
    Split(im.code, s.pc, ExprCode(x, k), tail);
    var s1 := ExprSim(im, k, x, env, sp, m, t, fuel, s);
    if e.Neg? {
      s' := NegSim(im, env, sp, r.m, r.t, s1);
    } else {
      s' := NotSim(im, env, sp, r.m, r.t, s1);
    }
    LandsThen(im, env, sp, s, s1, s', s1.pc, s'.pc, r.m, r.t, r.m, r.t);
  }

  /** Push a value, run something below it, and get it back in x1. */
  lemma PoppedSim(im: Image, env: Env, sp: int, s: State, s1: State, s2: State, s3: State, m1: Ram, t1: Trace, m2: Ram, t2: Trace) returns (s': State)
    requires Room(im.p.limit, env, sp) && sp - 16 >= im.p.limit
    requires Lands(im, env, sp, s, s1, s1.pc, m1, t1)
    requires Reaches(im.pl, im.code, s1, s2) && Kept(env.alloc, im.p.limit, sp, s1.mem, s2.mem)
    requires LoadWord(s2.mem, sp - 16) == s1.regs[0]
    requires Lands(im, env, sp - 16, s2, s3, s3.pc, m2, t2)
    requires 0 <= s3.pc < |im.code| && im.code[s3.pc] == Pop(1)
    ensures Lands(im, env, sp, s, s', s3.pc + 1, m2, t2)
    ensures s'.regs[0] == s3.regs[0] && s'.regs[1] == s1.regs[0]
  {
    TempKept(im.p.limit, env, sp, s2.mem, s3.mem);
    s' := PopSim(im, env, sp, m2, t2, s3, 1, s1.regs[0]);
    Chain(im, s, s1, s2);
    Chain(im, s, s2, s3);
    Chain(im, s, s3, s');
    KeptThen(env.alloc, im.p.limit, sp, s.mem, s1.mem, s2.mem);
    KeptThen(env.alloc, im.p.limit, sp, s.mem, s2.mem, s3.mem);
  }

  /** The code of the two-operand forms, taken apart. */
  lemma TwoPart(code: Code, pc: int, a: Code, b: Code, c: Code)
    requires CodeAt(code, pc, a + [Push] + b + [Pop(1)] + c)
    ensures CodeAt(code, pc, a)
    ensures 0 <= pc + |a| < |code| && code[pc + |a|] == Push
    ensures CodeAt(code, pc + |a| + 1, b)
    ensures 0 <= pc + |a| + 1 + |b| < |code| && code[pc + |a| + 1 + |b|] == Pop(1)
    ensures CodeAt(code, pc + |a| + |b| + 2, c)
  {
    Split(code, pc, a + [Push] + b + [Pop(1)], c);
    Split(code, pc, a + [Push] + b, [Pop(1)]);
    Split(code, pc, a + [Push], b);
    Split(code, pc, a, [Push]);
    At(code, pc + |a|, [Push], 0);
    At(code, pc + |a| + 1 + |b|, [Pop(1)], 0);
  }

  lemma {:induction false} BinarySim(im: Image, k: Ctx, op: BinOp, x: Expr, y: Expr, env: Env, sp: int, m: Ram, t: Trace, fuel: nat, s: State) returns (s': State)
    requires Start(im, k, env, sp, m, t, s) && ExprOk(x) && ExprOk(y)
    requires CodeAt(im.code, s.pc, BinaryCode(op, ExprCode(x, k), ExprCode(y, k)))
    requires EvalBinary(im.pl, im.p, op, x, y, env, sp, m, t, fuel).Ok?
    ensures var r := EvalBinary(im.pl, im.p, op, x, y, env, sp, m, t, fuel);
            Lands(im, env, sp, s, s', s.pc + |BinaryCode(op, ExprCode(x, k), ExprCode(y, k))|, r.m, r.t) && s'.regs[0] == r.v
    decreases fuel, Binary(op, x, y), 1
  {
    hide Linked, Room, Kept, Agree, CodeAt, Reaches, LoadWord, Eval, Address, ExprCode, AddressCode, ExprOk, OpCode, Apply;
    TwoPart(im.code, s.pc, ExprCode(y, k), ExprCode(x, k), OpCode(op));
    var ry := Eval(im.pl, im.p, y, env, sp, m, t, fuel);
    var rx := Eval(im.pl, im.p, x, env, sp - 16, ry.m, ry.t, fuel);
    var s4 := OperandsSim(im, k, op, x, y, env, sp, m, t, fuel, s);
    s' := OpSim(im, env, sp, op, rx.m, rx.t, s4);
    LandsThen(im, env, sp, s, s4, s', s4.pc, s'.pc, rx.m, rx.t, rx.m, rx.t);
  }

  /** Both operands: the right one waits on the stack while the left one is computed. */
  lemma {:induction false} OperandsSim(im: Image, k: Ctx, op: BinOp, x: Expr, y: Expr, env: Env, sp: int, m: Ram, t: Trace, fuel: nat, s: State) returns (s4: State)
    requires Start(im, k, env, sp, m, t, s) && ExprOk(x) && ExprOk(y)
    requires var a, b := ExprCode(y, k), ExprCode(x, k);
             && CodeAt(im.code, s.pc, a) && CodeAt(im.code, s.pc + |a| + 1, b)
             && 0 <= s.pc + |a| < |im.code| && im.code[s.pc + |a|] == Push
             && 0 <= s.pc + |a| + 1 + |b| < |im.code| && im.code[s.pc + |a| + 1 + |b|] == Pop(1)
    requires EvalBinary(im.pl, im.p, op, x, y, env, sp, m, t, fuel).Ok?
    ensures var ry := Eval(im.pl, im.p, y, env, sp, m, t, fuel);
            var rx := Eval(im.pl, im.p, x, env, sp - 16, ry.m, ry.t, fuel);
            && Lands(im, env, sp, s, s4, s.pc + |ExprCode(y, k)| + |ExprCode(x, k)| + 2, rx.m, rx.t)
            && s4.regs[0] == rx.v && s4.regs[1] == ry.v
    decreases fuel, Binary(op, x, y), 0
  {
    hide Linked, Room, Kept, Agree, CodeAt, Reaches, LoadWord, Eval, Address, ExprCode, AddressCode, ExprOk, Apply;
    var ry := Eval(im.pl, im.p, y, env, sp, m, t, fuel);
    var s1 := ExprSim(im, k, y, env, sp, m, t, fuel, s);
    var s2 := PushSim(im, env, sp, ry.m, ry.t, s1);
    var rx := Eval(im.pl, im.p, x, env, sp - 16, ry.m, ry.t, fuel);
    var s3 := ExprSim(im, k, x, env, sp - 16, ry.m, ry.t, fuel, s2);
    s4 := PoppedSim(im, env, sp, s, s1, s2, s3, ry.m, ry.t, rx.m, rx.t);
  }

  lemma {:induction false} AssignSim(im: Image, k: Ctx, dst: Expr, src: Expr, env: Env, sp: int, m: Ram, t: Trace, fuel: nat, s: State) returns (s': State)
    requires Start(im, k, env, sp, m, t, s) && ExprOk(dst) && ExprOk(src)
    requires CodeAt(im.code, s.pc, AssignCode(AddressCode(dst, k), ExprCode(src, k), TypeOf(dst)))
    requires EvalAssign(im.pl, im.p, dst, src, env, sp, m, t, fuel).Ok?
    ensures var r := EvalAssign(im.pl, im.p, dst, src, env, sp, m, t, fuel);
            Lands(im, env, sp, s, s', s.pc + |AssignCode(AddressCode(dst, k), ExprCode(src, k), TypeOf(dst))|, r.m, r.t) && s'.regs[0] == r.v
    decreases fuel, Assign(dst, src), 1
  {
    hide Linked, Room, Kept, Agree, CodeAt, Reaches, LoadWord, Eval, Address, ExprCode, AddressCode, ExprOk, Write, TypeOf, StoreCode;
    var ty := TypeOf(dst);
    TwoPart(im.code, s.pc, AddressCode(dst, k), ExprCode(src, k), StoreCode(ty));
    var ra := Address(im.pl, im.p, dst, env, sp, m, t, fuel);
    var rv := Eval(im.pl, im.p, src, env, sp - 16, ra.m, ra.t, fuel);
    var s4 := SidesSim(im, k, dst, src, env, sp, m, t, fuel, s);
    var m' := Write(ty, ra.v, rv.v, rv.m, env.alloc).value;
    s' := StoreSim(im, env, sp, ty, rv.m, rv.t, s4);
    LandsThen(im, env, sp, s, s4, s', s4.pc, s'.pc, rv.m, rv.t, m', rv.t);
  }

  /** Address of the left side, value of the right side: in x1 and x0. */
  lemma {:induction false} SidesSim(im: Image, k: Ctx, dst: Expr, src: Expr, env: Env, sp: int, m: Ram, t: Trace, fuel: nat, s: State) returns (s4: State)
    requires Start(im, k, env, sp, m, t, s) && ExprOk(dst) && ExprOk(src)
    requires var a, b := AddressCode(dst, k), ExprCode(src, k);
             && CodeAt(im.code, s.pc, a) && CodeAt(im.code, s.pc + |a| + 1, b)
             && 0 <= s.pc + |a| < |im.code| && im.code[s.pc + |a|] == Push
             && 0 <= s.pc + |a| + 1 + |b| < |im.code| && im.code[s.pc + |a| + 1 + |b|] == Pop(1)
    requires EvalAssign(im.pl, im.p, dst, src, env, sp, m, t, fuel).Ok?
    ensures var ra := Address(im.pl, im.p, dst, env, sp, m, t, fuel);
            var rv := Eval(im.pl, im.p, src, env, sp - 16, ra.m, ra.t, fuel);
            && Lands(im, env, sp, s, s4, s.pc + |AddressCode(dst, k)| + |ExprCode(src, k)| + 2, rv.m, rv.t)
            && s4.regs[0] == rv.v && s4.regs[1] == ra.v
    decreases fuel, Assign(dst, src), 0
  {
    hide Linked, Room, Kept, Agree, CodeAt, Reaches, LoadWord, Eval, Address, ExprCode, AddressCode, ExprOk, Write, TypeOf;
    var ra := Address(im.pl, im.p, dst, env, sp, m, t, fuel);
    var s1 := AddressSim(im, k, dst, env, sp, m, t, fuel, s);
    var s2 := PushSim(im, env, sp, ra.m, ra.t, s1);
    var rv := Eval(im.pl, im.p, src, env, sp - 16, ra.m, ra.t, fuel);
    var s3 := ExprSim(im, k, src, env, sp - 16, ra.m, ra.t, fuel, s2);
    s4 := PoppedSim(im, env, sp, s, s1, s2, s3, ra.m, ra.t, rv.m, rv.t);
  }

  /** The code of `&&` and `||`, taken apart. `h` is the extra compare of `||`. */
  lemma LogicParts(code: Code, pc: int, a: Code, h: Code, br: Instr, b: Code, tail: Code)
    requires CodeAt(code, pc, a + (h + [br]) + b + tail) && |tail| == 4
    ensures CodeAt(code, pc, a) && CodeAt(code, pc + |a|, h)
    ensures 0 <= pc + |a| + |h| < |code| && code[pc + |a| + |h|] == br
    ensures CodeAt(code, pc + |a| + |h| + 1, b) && CodeAt(code, pc + |a| + |h| + 1 + |b|, tail)
    ensures pc + |a| + |h| + |b| + 4 < |code| && code[pc + |a| + |h| + |b| + 4] == tail[3]
  {
    Split(code, pc, a + (h + [br]) + b, tail);
    Split(code, pc, a + (h + [br]), b);
    Split(code, pc, a, h + [br]);
    Split(code, pc + |a|, h, [br]);
    At(code, pc + |a| + |h|, [br], 0);
    At(code, pc + |a| + |h| + 1 + |b|, tail, 3);
  }

  lemma CompareOnly(im: Image, env: Env, sp: int, m: Ram, t: Trace, s: State, h: Code) returns (s': State)
    requires h == [] || h == [CmpZero(0)]
    requires Matches(env, sp, m, t, s) && CodeAt(im.code, s.pc, h)
    ensures Lands(im, env, sp, s, s', s.pc + |h|, m, t) && s'.regs == s.regs
  {
    if h == [] {
      Zero(im, s);
      return s;
    }
    At(im.code, s.pc, h, 0);
    s' := Compare(s, s.regs[0], 0);
    One(im, s, CmpZero(0), s');
  }

  function LogicCode(isAnd: bool, a: Code, b: Code): Code {
    if isAnd then AndCode(a, b) else OrCode(a, b)
  }

  lemma LogicShape(isAnd: bool, a: Code, b: Code, h: Code, br: Instr, tail: Code)
    requires h == if isAnd then [] else [CmpZero(0)]
    requires br == if isAnd then Cbz(|b| + 4) else Cbnz(|b| + 4)
    requires tail == if isAnd then [Cbz(3), Movz(0, 1), B(2), Movz(0, 0)] else [Cbnz(3), Movz(0, 0), B(2), Movz(0, 1)]
    ensures LogicCode(isAnd, a, b) == a + (h + [br]) + b + tail
  {
  }

  ghost function EvalLogic(im: Image, isAnd: bool, x: Expr, y: Expr, env: Env, sp: int, m: Ram, t: Trace, fuel: nat): Outcome<U64> {
    if isAnd then EvalAnd(im.pl, im.p, x, y, env, sp, m, t, fuel) else EvalOr(im.pl, im.p, x, y, env, sp, m, t, fuel)
  }

  lemma {:induction false} LogicSim(im: Image, k: Ctx, isAnd: bool, x: Expr, y: Expr, env: Env, sp: int, m: Ram, t: Trace, fuel: nat, s: State) returns (s': State)
    requires Start(im, k, env, sp, m, t, s) && ExprOk(x) && ExprOk(y)
    requires CodeAt(im.code, s.pc, LogicCode(isAnd, ExprCode(x, k), ExprCode(y, k)))
    requires EvalLogic(im, isAnd, x, y, env, sp, m, t, fuel).Ok?
    ensures var r := EvalLogic(im, isAnd, x, y, env, sp, m, t, fuel);
            Lands(im, env, sp, s, s', s.pc + |LogicCode(isAnd, ExprCode(x, k), ExprCode(y, k))|, r.m, r.t) && s'.regs[0] == r.v
    decreases fuel, if isAnd then LogAnd(x, y) else LogOr(x, y), 1
  {
    hide Linked, Room, Kept, Agree, CodeAt, Reaches, LoadWord, Eval, Address, ExprCode, AddressCode, ExprOk, LogicCode;
    var a, b := ExprCode(x, k), ExprCode(y, k);
    var h: Code := if isAnd then [] else [CmpZero(0)];
    var br := if isAnd then Cbz(|b| + 4) else Cbnz(|b| + 4);
    var tail := if isAnd then [Cbz(3), Movz(0, 1), B(2), Movz(0, 0)] else [Cbnz(3), Movz(0, 0), B(2), Movz(0, 1)];
    LogicShape(isAnd, a, b, h, br, tail);
    LogicParts(im.code, s.pc, a, h, br, b, tail);
    var rx := Eval(im.pl, im.p, x, env, sp, m, t, fuel);
    var s2 := LogicFirst(im, k, x, h, env, sp, m, t, fuel, s, if isAnd then LogAnd(x, y) else LogOr(x, y));
    if isAnd == (rx.v == 0) {
      s' := ShortSim(im, env, sp, rx.m, rx.t, s2, isAnd, |b|);
      LandsThen(im, env, sp, s, s2, s', s2.pc, s'.pc, rx.m, rx.t, rx.m, rx.t);
    } else {
      s' := LogicRest(im, k, isAnd, y, br, tail, env, sp, rx.m, rx.t, fuel, s, s2);
    }
  }

  /** The first operand, up to the branch that may decide. */
  lemma {:induction false} LogicFirst(im: Image, k: Ctx, x: Expr, h: Code, env: Env, sp: int, m: Ram, t: Trace, fuel: nat, s: State, whole: Expr) returns (s2: State)
    requires Start(im, k, env, sp, m, t, s) && ExprOk(x) && (h == [] || h == [CmpZero(0)])
    requires CodeAt(im.code, s.pc, ExprCode(x, k)) && CodeAt(im.code, s.pc + |ExprCode(x, k)|, h)
    requires Eval(im.pl, im.p, x, env, sp, m, t, fuel).Ok? && x < whole
    ensures var r := Eval(im.pl, im.p, x, env, sp, m, t, fuel);
            && Lands(im, env, sp, s, s2, s.pc + |ExprCode(x, k)| + |h|, r.m, r.t) && s2.regs[0] == r.v
            && Start(im, k, env, sp, r.m, r.t, s2)
    decreases fuel, whole, 0
  {
    hide Linked, Room, Kept, Agree, CodeAt, Reaches, LoadWord, Eval, Address, ExprCode, AddressCode, ExprOk;
    var r := Eval(im.pl, im.p, x, env, sp, m, t, fuel);
    var s1 := ExprSim(im, k, x, env, sp, m, t, fuel, s);
    s2 := CompareOnly(im, env, sp, r.m, r.t, s1, h);
    LandsThen(im, env, sp, s, s1, s2, s1.pc, s2.pc, r.m, r.t, r.m, r.t);
  }

  /** The second operand of `&&` and `||`, when the first one does not decide. */
  lemma {:induction false} LogicRest(im: Image, k: Ctx, isAnd: bool, y: Expr, br: Instr, tail: Code, env: Env, sp: int, m: Ram, t: Trace, fuel: nat, s: State, s2: State) returns (s': State)
    requires Start(im, k, env, sp, m, t, s2) && ExprOk(y)
    requires br == (if isAnd then Cbz(|ExprCode(y, k)| + 4) else Cbnz(|ExprCode(y, k)| + 4)) && isAnd != (s2.regs[0] == 0)
    requires tail == if isAnd then [Cbz(3), Movz(0, 1), B(2), Movz(0, 0)] else [Cbnz(3), Movz(0, 0), B(2), Movz(0, 1)]
    requires 0 <= s2.pc < |im.code| && im.code[s2.pc] == br
    requires CodeAt(im.code, s2.pc + 1, ExprCode(y, k)) && CodeAt(im.code, s2.pc + 1 + |ExprCode(y, k)|, tail)
    requires Lands(im, env, sp, s, s2, s2.pc, m, t)
    requires Eval(im.pl, im.p, y, env, sp, m, t, fuel).Ok?
    ensures var r := Truth(Eval(im.pl, im.p, y, env, sp, m, t, fuel));
            Lands(im, env, sp, s, s', s2.pc + 1 + |ExprCode(y, k)| + 4, r.m, r.t) && s'.regs[0] == r.v
    decreases fuel, y, 9
  {
    hide Linked, Room, Kept, Agree, CodeAt, Reaches, LoadWord, Eval, Address, ExprCode, AddressCode, ExprOk;
    var s3 := BranchSim(im, env, sp, m, t, s2, br);
    LandsThen(im, env, sp, s, s2, s3, s2.pc, s3.pc, m, t, m, t);
    var ry := Eval(im.pl, im.p, y, env, sp, m, t, fuel);
    var s4 := ExprSim(im, k, y, env, sp, m, t, fuel, s3);
    LandsThen(im, env, sp, s, s3, s4, s3.pc, s4.pc, m, t, ry.m, ry.t);
    s' := TailSim(im, env, sp, ry.m, ry.t, s4, isAnd, tail);
    LandsThen(im, env, sp, s, s4, s', s4.pc, s'.pc, ry.m, ry.t, ry.m, ry.t);
  }

  lemma CallParts(code: Code, pc: int, a: Code, n: nat, v: U64)
    requires CodeAt(code, pc, CallCode(a, n, v))
    ensures CodeAt(code, pc, a) && CodeAt(code, pc + |a|, PopArgs(n))
    ensures CodeAt(code, pc + |a| + n, LoadImm(9, v) + [Blr(9)])
  {
    assert a + PopArgs(n) + LoadImm(9, v) + [Blr(9)] == a + PopArgs(n) + (LoadImm(9, v) + [Blr(9)]);
    Split(code, pc, a + PopArgs(n), LoadImm(9, v) + [Blr(9)]);
    Split(code, pc, a, PopArgs(n));
  }

  /** `gen_call`: argument `i` arrives in register `i`, and the caller's stack is as before the call. */
  lemma {:induction false} CallSim(im: Image, k: Ctx, name: string, args: Args, env: Env, sp: int, m: Ram, t: Trace, fuel: nat, s: State) returns (s': State)
    requires Start(im, k, env, sp, m, t, s) && ArgsOk(args) && args.Length() <= 8
    requires CodeAt(im.code, s.pc, CallCode(ArgsCode(args, k), args.Length(), CallTarget(name, k)))
    requires EvalCall(im.pl, im.p, name, args, env, sp, m, t, fuel).Ok?
    ensures var r := EvalCall(im.pl, im.p, name, args, env, sp, m, t, fuel);
            Lands(im, env, sp, s, s', s.pc + |CallCode(ArgsCode(args, k), args.Length(), CallTarget(name, k))|, r.m, r.t) && s'.regs[0] == r.v
    decreases fuel, Call(name, args), 1
  {
    hide CodeAt, Reaches, ArgsCode, Waiting, LoadImm, EvalArgs;
    var n := args.Length();
    CallParts(im.code, s.pc, ArgsCode(args, k), n, CallTarget(name, k));
    var ra := EvalArgs(im.pl, im.p, args, env, sp, m, t, fuel);
    var s1 := ArgsSim(im, k, args, env, sp, m, t, fuel, s);
    var s2 := PopArgsSim(im, env, sp, ra.v, n, ra.m, ra.t, s1);
    Chain(im, s, s1, s2);
    assert Lands(im, env, sp, s, s2, s2.pc, ra.m, ra.t);
    var j := Find(im.p.funcs, name, 0);
    if j < 0 {
      assert name !in im.names;
      s' := KernelSim(im, env, sp, ra.m, ra.t, s2, im.p.externs[name], ra.v);
      var r := EvalCall(im.pl, im.p, name, args, env, sp, m, t, fuel);
      LandsThen(im, env, sp, s, s2, s', s2.pc, s'.pc, ra.m, ra.t, r.m, r.t);
    } else {
      s' := OwnCallSim(im, k, name, j, ra.v, env, sp, ra.m, ra.t, fuel - 1, s2);
      var r := Activate(im.pl, im.p, im.p.funcs[j], ra.v, env.alloc, sp, ra.m, ra.t, fuel - 1);
      LandsThen(im, env, sp, s, s2, s', s2.pc, s'.pc, ra.m, ra.t, r.m, r.t);
    }
  }

  /** BLR into one of the program's functions and back to the instruction after it. */
  lemma {:induction false} OwnCallSim(im: Image, k: Ctx, name: string, j: nat, vals: seq<U64>, env: Env, sp: int, m: Ram, t: Trace, fuel: nat, s: State) returns (s': State)
    requires Start(im, k, env, sp, m, t, s) && |vals| <= 8
    requires Find(im.p.funcs, name, 0) == j
    requires CodeAt(im.code, s.pc, LoadImm(9, CallTarget(name, k)) + [Blr(9)])
    requires forall i :: 0 <= i < |vals| ==> s.regs[i] == vals[i]
    requires Activate(im.pl, im.p, im.p.funcs[j], vals, env.alloc, sp, m, t, fuel).Ok?
    ensures var r := Activate(im.pl, im.p, im.p.funcs[j], vals, env.alloc, sp, m, t, fuel);
            Lands(im, env, sp, s, s', s.pc + 5, r.m, r.t) && s'.regs[0] == r.v
    decreases fuel, im.p.funcs[j], 2
  {
    hide Activate, Reaches, Agree, Kept, Linked, FuncPlaced, CallTarget, CodeAt, LoadImm, StmtOk, Find;
    var a := CallTarget(name, k);
    OwnEntry(im, k, name, j, s.pc);
    var s1 := EnterSim(im, s, a, im.entry[j]);
    var r := Activate(im.pl, im.p, im.p.funcs[j], vals, env.alloc, sp, m, t, fuel);
    s' := ActivateSim(im, j, vals, env, sp, m, t, fuel, s1);
    Chain(im, s, s1, s');
  }

  lemma OwnEntry(im: Image, k: Ctx, name: string, j: nat, pc: int)
    requires Linked(im) && k.entry == im.names && Find(im.p.funcs, name, 0) == j
    requires CodeAt(im.code, pc, LoadImm(9, CallTarget(name, k)) + [Blr(9)])
    ensures CallTarget(name, k) !in im.pl.arity && im.pl.base + 4 * (pc + 5) < TWO64
    ensures |im.entry| == |im.p.funcs| && FuncPlaced(im, j) && 0 <= im.entry[j] <= |im.code|
    ensures CallTarget(name, k) == im.pl.base + 4 * im.entry[j]
  {
    assert name in im.names && FuncPlaced(im, j);
  }

  lemma {:induction false} ArgsSim(im: Image, k: Ctx, args: Args, env: Env, sp: int, m: Ram, t: Trace, fuel: nat, s: State) returns (s': State)
    requires Start(im, k, env, sp, m, t, s) && ArgsOk(args)
    requires CodeAt(im.code, s.pc, ArgsCode(args, k))
    requires EvalArgs(im.pl, im.p, args, env, sp, m, t, fuel).Ok?
    ensures var r := EvalArgs(im.pl, im.p, args, env, sp, m, t, fuel);
            ArgsReady(im, env, sp, r.v, s, s', s.pc + |ArgsCode(args, k)|, r.m, r.t)
    decreases fuel, args, 0
  {
    hide CodeAt, Reaches, Linked, Room, Kept, Agree, Eval, ExprCode, LoadWord, ArgsReady;
    if args.NoArgs? {
      ArgsReadyNone(im, env, sp, s, m, t);
      return s;
    }
    var e, rest := args.head, args.tail;
    ArgParts(im.code, s.pc, ExprCode(e, k), ArgsCode(rest, k));
    var re := Eval(im.pl, im.p, e, env, sp, m, t, fuel);
    var s1 := ExprSim(im, k, e, env, sp, m, t, fuel, s);
    var s2 := PushSim(im, env, sp, re.m, re.t, s1);
    s' := ArgsSim(im, k, rest, env, sp - 16, re.m, re.t, fuel, s2);
    var rr := EvalArgs(im.pl, im.p, rest, env, sp - 16, re.m, re.t, fuel);
    assert EvalArgs(im.pl, im.p, args, env, sp, m, t, fuel) == Ok([re.v] + rr.v, rr.m, rr.t);
    ArgsReadyCons(im, env, sp, re.v, rr.v, s, s1, s2, s', s2.pc + |ArgsCode(rest, k)|, re.m, re.t, rr.m, rr.t);
  }

  lemma ArgParts(code: Code, pc: int, a: Code, b: Code)
    requires CodeAt(code, pc, a + [Push] + b)
    ensures CodeAt(code, pc, a) && CodeAt(code, pc + |a| + 1, b)
    ensures 0 <= pc + |a| < |code| && code[pc + |a|] == Push
  {
    Split(code, pc, a + [Push], b);
    Split(code, pc, a, [Push]);
    At(code, pc + |a|, [Push], 0);
  }

  /** All arguments computed and waiting on the stack. */
  ghost predicate ArgsReady(im: Image, env: Env, sp: int, vals: seq<U64>, s: State, s': State, pc: int, m: Ram, t: Trace) {
    && im.p.limit <= sp - 16 * |vals|
    && Reaches(im.pl, im.code, s, s') && s'.pc == pc
    && Matches(env, sp - 16 * |vals|, m, t, s')
    && Kept(env.alloc, im.p.limit, sp, s.mem, s'.mem)
    && Waiting(vals, |vals|, sp, s'.mem)
  }

  lemma ArgsReadyNone(im: Image, env: Env, sp: int, s: State, m: Ram, t: Trace)
    requires Room(im.p.limit, env, sp) && Matches(env, sp, m, t, s)
    ensures ArgsReady(im, env, sp, [], s, s, s.pc, m, t)
  {
    Zero(im, s);
  }

  lemma ArgsReadyCons(im: Image, env: Env, sp: int, v: U64, vals: seq<U64>, s: State, s1: State, s2: State, s': State, pc: int, m1: Ram, t1: Trace, m2: Ram, t2: Trace)
    requires Room(im.p.limit, env, sp) && sp - 16 >= im.p.limit
    requires Lands(im, env, sp, s, s1, s1.pc, m1, t1)
    requires Reaches(im.pl, im.code, s1, s2) && Kept(env.alloc, im.p.limit, sp, s1.mem, s2.mem)
    requires LoadWord(s2.mem, sp - 16) == v
    requires ArgsReady(im, env, sp - 16, vals, s2, s', pc, m2, t2)
    ensures ArgsReady(im, env, sp, [v] + vals, s, s', pc, m2, t2)
  {
    hide Reaches, Agree, Waiting, LoadWord;
    TempKept(im.p.limit, env, sp, s2.mem, s'.mem);
    WaitingCons(v, vals, |vals|, sp, s'.mem);
    Chain(im, s, s1, s2);
    Chain(im, s, s2, s');
    KeptThen(env.alloc, im.p.limit, sp, s.mem, s1.mem, s2.mem);
    KeptThen(env.alloc, im.p.limit, sp, s.mem, s2.mem, s'.mem);
  }

  /** One activation, from the function's first instruction to the return. */
  lemma {:induction false} ActivateSim(im: Image, j: nat, vals: seq<U64>, env: Env, sp: int, m: Ram, t: Trace, fuel: nat, s: State) returns (s': State)
    requires Linked(im) && j < |im.p.funcs| && |vals| <= 8
    requires Room(im.p.limit, env, sp) && Matches(env, sp, m, t, s)
    requires s.pc == im.entry[j] && (s.regs[LR] - im.pl.base) % 4 == 0
    requires forall i :: 0 <= i < |vals| ==> s.regs[i] == vals[i]
    requires Activate(im.pl, im.p, im.p.funcs[j], vals, env.alloc, sp, m, t, fuel).Ok?
    ensures var r := Activate(im.pl, im.p, im.p.funcs[j], vals, env.alloc, sp, m, t, fuel);
            Lands(im, env, sp, s, s', (s.regs[LR] - im.pl.base) / 4, r.m, r.t) && s'.regs[0] == r.v
    decreases fuel, im.p.funcs[j], 1
  {
    hide Linked, Room, Agree, Reaches, CodeAt, Kept, Saved, Spill, Exec, HeadCode, StmtCode, StmtSize, StmtOk, ParamSlots, FrameSize, Restrict;
    var f := im.p.funcs[j];
    var inner := InnerEnv(f, env.alloc, sp);
    var low := sp - 16 - FrameSize(f.locals);
    var m1 := Spill(ParamSlots(f), sp - 16, inner.alloc, vals, m, 0).value;
    var r := Exec(im.pl, im.p, f.body, -1, inner, low, m1, t, fuel);
    PlacedParts(im, j);
    var s1 := HeadSim(im, f, vals, env, sp, m, t, s);
    InnerRoom(im.p.limit, f, env, sp);
    var s3 := BodySim(im, j, inner, low, m1, t, fuel, s1);
    s' := AfterBody(im, f, env, sp, r.m, r.t, s, s1, s3);
  }

  /** Where the epilogue of function `j` starts. */
  function LeaveAt(im: Image, j: nat): int
    requires j < |im.p.funcs| == |im.entry|
  {
    im.entry[j] + |HeadCode(im.p.funcs[j])| + StmtSize(im.p.funcs[j].body, CtxOf(im, im.p.funcs[j])) + 1
  }

  lemma PlacedParts(im: Image, j: nat)
    requires Linked(im) && j < |im.p.funcs|
    ensures |im.entry| == |im.p.funcs|
    ensures var f := im.p.funcs[j];
            var k := CtxOf(im, f);
            var body := im.entry[j] + |HeadCode(f)|;
            && FrameSize(f.locals) <= 0xFFF && StmtOk(f.body)
            && CodeAt(im.code, im.entry[j], HeadCode(f))
            && CodeAt(im.code, body, StmtCode(f.body, k, body, Exits(0, 0, LeaveAt(im, j))))
            && 0 <= LeaveAt(im, j) - 1 < |im.code| && im.code[LeaveAt(im, j) - 1] == Movz(0, 0)
            && CodeAt(im.code, LeaveAt(im, j), [AddImm(R31, FP, 0), LdpFrame, Ret])
  {
    hide CodeAt, FuncCode, HeadCode, StmtCode, StmtSize, StmtOk;
    assert FuncPlaced(im, j);
    FuncParts(im.code, im.p.funcs[j], CtxOf(im, im.p.funcs[j]), im.entry[j]);
  }

  /** The body of function `j`, up to the epilogue. */
  lemma {:induction false} BodySim(im: Image, j: nat, env: Env, sp: int, m: Ram, t: Trace, fuel: nat, s: State) returns (s': State)
    requires Linked(im) && j < |im.p.funcs| && env.offs == Offsets(im.p.funcs[j].locals)
    requires Room(im.p.limit, env, sp) && Matches(env, sp, m, t, s)
    requires s.pc == im.entry[j] + |HeadCode(im.p.funcs[j])|
    requires var r := Exec(im.pl, im.p, im.p.funcs[j].body, -1, env, sp, m, t, fuel);
             r.Ok? && (r.v.Normal? || r.v.Returned?)
    ensures var r := Exec(im.pl, im.p, im.p.funcs[j].body, -1, env, sp, m, t, fuel);
            && Lands(im, env, sp, s, s', LeaveAt(im, j), r.m, r.t)
            && s'.regs[0] == if r.v.Normal? then 0 else r.v.val
    decreases fuel, im.p.funcs[j], 0
  {
    hide Linked, Room, Agree, Reaches, CodeAt, Kept, Exec, StmtCode, HeadCode;
    var f := im.p.funcs[j];
    var k := CtxOf(im, f);
    PlacedParts(im, j);
    var r := Exec(im.pl, im.p, f.body, -1, env, sp, m, t, fuel);
    var s2 := StmtSim(im, k, f.body, -1, s.pc, Exits(0, 0, LeaveAt(im, j)), env, sp, m, t, fuel, s);
    s' := RetSim(im, env, sp, r, LeaveAt(im, j) - 1, s, s2);
  }

  /** The frame is popped and the caller resumes with what it had saved. */
  lemma AfterBody(im: Image, f: Func, env: Env, sp: int, m: Ram, t: Trace, s: State, s1: State, s3: State) returns (s': State)
    requires Room(im.p.limit, env, sp) && im.p.limit <= sp - 16 - FrameSize(f.locals)
    requires Reaches(im.pl, im.code, s, s1) && Kept(env.alloc, im.p.limit, sp, s.mem, s1.mem)
    requires Saved(sp, env.fp, s.regs[LR], s1.mem) && (s.regs[LR] - im.pl.base) % 4 == 0
    requires Lands(im, InnerEnv(f, env.alloc, sp), sp - 16 - FrameSize(f.locals), s1, s3, s3.pc, m, t)
    requires CodeAt(im.code, s3.pc, [AddImm(R31, FP, 0), LdpFrame, Ret])
    ensures Lands(im, env, sp, s, s', (s.regs[LR] - im.pl.base) / 4, Restrict(m, env.alloc), t)
    ensures s'.regs[0] == s3.regs[0]
  {
    hide Room, Reaches, CodeAt, Agree, LoadWord, Kept;
    OuterKept(im.p.limit, f, env, sp, s1.mem, s3.mem);
    s' := ExitSim(im, f, env, sp, m, t, s.regs[LR], s3);
    Chain(im, s, s1, s3);
    Chain(im, s, s3, s');
    KeptThen(env.alloc, im.p.limit, sp, s.mem, s1.mem, s3.mem);
  }

  lemma FuncParts(code: Code, f: Func, k: Ctx, pos: int)
    requires CodeAt(code, pos, FuncCode(f, k, pos))
    ensures var body := pos + |HeadCode(f)|;
            var end := body + StmtSize(f.body, k);
            && CodeAt(code, pos, HeadCode(f))
            && CodeAt(code, body, StmtCode(f.body, k, body, Exits(0, 0, end + 1)))
            && 0 <= end < |code| && code[end] == Movz(0, 0)
            && CodeAt(code, end + 1, [AddImm(R31, FP, 0), LdpFrame, Ret])
  {
    hide CodeAt, HeadCode, StmtCode, StmtSize;
    var body := pos + |HeadCode(f)|;
    var end := body + StmtSize(f.body, k);
    var c := StmtCode(f.body, k, body, Exits(0, 0, end + 1));
    var tail := [Movz(0, 0)] + [AddImm(R31, FP, 0), LdpFrame, Ret];
    assert FuncCode(f, k, pos) == HeadCode(f) + c + tail;
    Split(code, pos, HeadCode(f) + c, tail);
    Split(code, pos, HeadCode(f), c);
    Split(code, end, [Movz(0, 0)], [AddImm(R31, FP, 0), LdpFrame, Ret]);
    At(code, end, [Movz(0, 0)], 0);
  }

  /** Falling off the end of the body sets the result to 0 first. */
  lemma RetSim(im: Image, env: Env, sp: int, r: Outcome<Exit>, end: int, s: State, s1: State) returns (s': State)
    requires r.Ok? && (r.v.Normal? || r.v.Returned?)
    requires Lands(im, env, sp, s, s1, if r.v.Normal? then end else end + 1, r.m, r.t)
    requires r.v.Returned? ==> s1.regs[0] == r.v.val
    requires 0 <= end < |im.code| && im.code[end] == Movz(0, 0)
    ensures Lands(im, env, sp, s, s', end + 1, r.m, r.t)
    ensures s'.regs[0] == if r.v.Normal? then 0 else r.v.val
  {
    if r.v.Returned? {
      return s1;
    }
    s' := SetSim(im, env, sp, r.m, r.t, s1, 0);
    LandsThen(im, env, sp, s, s1, s', s1.pc, s'.pc, r.m, r.t, r.m, r.t);
  }

  // ---------- statements ----------

  /** Where execution continues after an exit from a statement that ends at `end`. */
  function ExitAt(v: Exit, end: int, x: Exits): int {
    match v
    case Normal => end
    case Broke => x.brk
    case Continued => x.cont
    case Returned(_) => x.ret
  }

  ghost predicate Exited(im: Image, env: Env, sp: int, s: State, s': State, r: Outcome<Exit>, end: int, x: Exits) {
    && r.Ok?
    && Lands(im, env, sp, s, s', ExitAt(r.v, end, x), r.m, r.t)
    && (r.v.Returned? ==> s'.regs[0] == r.v.val)
  }

  /** Where `s` starts: at its first instruction, or at the case label sought. */
  function EntryOf(s: Stmt, k: Ctx, pos: int, seek: int): int
    requires -1 <= seek < |Cases(s)|
  {
    if seek < 0 then pos else CaseAt(s, k, pos)[seek]
  }

  lemma LandsExited(im: Image, env: Env, sp: int, s: State, s1: State, s2: State, m: Ram, t: Trace, r: Outcome<Exit>, end: int, x: Exits)
    requires Lands(im, env, sp, s, s1, s1.pc, m, t) && Exited(im, env, sp, s1, s2, r, end, x)
    ensures Exited(im, env, sp, s, s2, r, end, x)
  {
    LandsThen(im, env, sp, s, s1, s2, s1.pc, s2.pc, m, t, r.m, r.t);
  }

  /** A branch to `end` placed after a statement moves its normal exit there. */
  lemma ThenJump(im: Image, env: Env, sp: int, s: State, s1: State, r: Outcome<Exit>, at: int, end: int, x: Exits) returns (s': State)
    requires Exited(im, env, sp, s, s1, r, at, x)
    requires 0 <= at < |im.code| && im.code[at] == B(end - at)
    ensures Exited(im, env, sp, s, s', r, end, x)
  {
    if !r.v.Normal? {
      return s1;
    }
    s' := BranchSim(im, env, sp, r.m, r.t, s1, B(end - at));
    LandsThen(im, env, sp, s, s1, s', s1.pc, s'.pc, r.m, r.t, r.m, r.t);
  }

  /** `gen_stmt`: the code of a statement leaves through the exit the statement leaves through. */
  lemma {:induction false} StmtSim(im: Image, k: Ctx, b: Stmt, seek: int, pos: int, x: Exits, env: Env, sp: int, m: Ram, t: Trace, fuel: nat, s: State) returns (s': State)
    requires Start(im, k, env, sp, m, t, s) && StmtOk(b) && -1 <= seek < |Cases(b)|
    requires CodeAt(im.code, pos, StmtCode(b, k, pos, x)) && s.pc == EntryOf(b, k, pos, seek)
    requires Exec(im.pl, im.p, b, seek, env, sp, m, t, fuel).Ok?
    ensures Exited(im, env, sp, s, s', Exec(im.pl, im.p, b, seek, env, sp, m, t, fuel), pos + StmtSize(b, k), x)
    decreases fuel, b, 4
  {
    hide Linked, Room, Agree, Reaches, CodeAt, Kept, Eval, ExprCode;
    match b
    case If(_, _, _) =>
      s' := IfSim(im, k, b, seek, pos, x, env, sp, m, t, fuel, s);
    case While(_, _) =>
      s' := WhileSim(im, k, b, seek, pos, x, env, sp, m, t, fuel, s);
    case For(_, _, _, _) =>
      s' := ForSim(im, k, b, seek, pos, x, env, sp, m, t, fuel, s);
    case Switch(_, _) =>
      s' := SwitchSim(im, k, b, pos, x, env, sp, m, t, fuel, s);
    case Case(_, i) =>
      s' := StmtSim(im, k, i, if seek <= 0 then -1 else seek - 1, pos, x, env, sp, m, t, fuel, s);
    case Block(ss) =>
      s' := ListSim(im, k, ss, seek, pos, x, env, sp, m, t, fuel, s);
    case _ =>
      s' := SimpleSim(im, k, b, pos, x, env, sp, m, t, fuel, s);
  }

  lemma {:induction false} SimpleSim(im: Image, k: Ctx, b: Stmt, pos: int, x: Exits, env: Env, sp: int, m: Ram, t: Trace, fuel: nat, s: State) returns (s': State)
    requires b.ExprStmt? || b.Return? || b.Break? || b.Continue?
    requires Start(im, k, env, sp, m, t, s) && StmtOk(b)
    requires CodeAt(im.code, pos, StmtCode(b, k, pos, x)) && s.pc == pos
    requires Exec(im.pl, im.p, b, -1, env, sp, m, t, fuel).Ok?
    ensures Exited(im, env, sp, s, s', Exec(im.pl, im.p, b, -1, env, sp, m, t, fuel), pos + StmtSize(b, k), x)
    decreases fuel, b, 3
  {
    hide Linked, Room, Agree, Reaches, CodeAt, Kept, Eval, ExprCode;
    match b
    case ExprStmt(e) =>
      s' := ExprSim(im, k, e, env, sp, m, t, fuel, s);
    case Return(e) =>
      var br := B(x.ret - (pos + |ExprCode(e, k)|));
      Split(im.code, pos, ExprCode(e, k), [br]);
      At(im.code, pos + |ExprCode(e, k)|, [br], 0);
      var r := Eval(im.pl, im.p, e, env, sp, m, t, fuel);
      var s1 := ExprSim(im, k, e, env, sp, m, t, fuel, s);
      s' := BranchSim(im, env, sp, r.m, r.t, s1, br);
      LandsThen(im, env, sp, s, s1, s', s1.pc, s'.pc, r.m, r.t, r.m, r.t);
    case Break =>
      At(im.code, pos, [B(x.brk - pos)], 0);
      s' := BranchSim(im, env, sp, m, t, s, B(x.brk - pos));
    case Continue =>
      At(im.code, pos, [B(x.cont - pos)], 0);
      s' := BranchSim(im, env, sp, m, t, s, B(x.cont - pos));
  }

  lemma {:induction false} ListSim(im: Image, k: Ctx, ss: Stmts, seek: int, pos: int, x: Exits, env: Env, sp: int, m: Ram, t: Trace, fuel: nat, s: State) returns (s': State)
    requires Start(im, k, env, sp, m, t, s) && StmtsOk(ss) && -1 <= seek < |CasesOf(ss)|
    requires CodeAt(im.code, pos, ListCode(ss, k, pos, x))
    requires s.pc == if seek < 0 then pos else CasesAt(ss, k, pos)[seek]
    requires ExecList(im.pl, im.p, ss, seek, env, sp, m, t, fuel).Ok?
    ensures Exited(im, env, sp, s, s', ExecList(im.pl, im.p, ss, seek, env, sp, m, t, fuel), pos + ListSize(ss, k), x)
    decreases fuel, ss, 3
  {
    hide Linked, Room, Agree, Reaches, CodeAt, Kept, Exec, StmtCode, StmtSize, CaseAt, Cases;
    if ss.Done? {
      ListDone(im, env, sp, s, m, t, pos, x);
      return s;
    }
    var b, rest := ss.first, ss.rest;
    var mid := pos + StmtSize(b, k);
    Split(im.code, pos, StmtCode(b, k, pos, x), ListCode(rest, k, mid, x));
    if seek >= |Cases(b)| {
      s' := ListSim(im, k, rest, seek - |Cases(b)|, mid, x, env, sp, m, t, fuel, s);
      return;
    }
    var r := Exec(im.pl, im.p, b, seek, env, sp, m, t, fuel);
    var s1 := StmtSim(im, k, b, seek, pos, x, env, sp, m, t, fuel, s);
    if !r.v.Normal? {
      return s1;
    }
    s' := ListSim(im, k, rest, -1, mid, x, env, sp, r.m, r.t, fuel, s1);
    LandsExited(im, env, sp, s, s1, s', r.m, r.t, ExecList(im.pl, im.p, rest, -1, env, sp, r.m, r.t, fuel), pos + ListSize(ss, k), x);
  }

  lemma ListDone(im: Image, env: Env, sp: int, s: State, m: Ram, t: Trace, pos: int, x: Exits)
    requires Matches(env, sp, m, t, s) && s.pc == pos
    ensures Exited(im, env, sp, s, s, Ok(Normal, m, t), pos, x)
  {
    Zero(im, s);
  }

  /** Code with two single instructions in it, taken apart. */
  lemma FiveParts(code: Code, pos: int, c0: Code, i1: Instr, c2: Code, c3: Code, i4: Instr, c5: Code)
    requires CodeAt(code, pos, c0 + [i1] + c2 + c3 + [i4] + c5) || (c3 == [] && CodeAt(code, pos, c0 + [i1] + c2 + [i4] + c5))
    ensures var p2 := pos + |c0| + 1;
            var p4 := p2 + |c2| + |c3|;
            && CodeAt(code, pos, c0) && 0 <= p2 - 1 < |code| && code[p2 - 1] == i1
            && CodeAt(code, p2, c2) && CodeAt(code, p2 + |c2|, c3)
            && 0 <= p4 < |code| && code[p4] == i4 && CodeAt(code, p4 + 1, c5)
  {
    if c3 == [] {
      assert c0 + [i1] + c2 + c3 + [i4] + c5 == c0 + [i1] + c2 + [i4] + c5;
    }
    Split(code, pos, c0 + [i1] + c2 + c3 + [i4], c5);
    Split(code, pos, c0 + [i1] + c2 + c3, [i4]);
    Split(code, pos, c0 + [i1] + c2, c3);
    Split(code, pos, c0 + [i1], c2);
    Split(code, pos, c0, [i1]);
    At(code, pos + |c0|, [i1], 0);
    At(code, pos + |c0| + 1 + |c2| + |c3|, [i4], 0);
  }

  // ---------- if ----------

  lemma IfParts(code: Code, b: Stmt, k: Ctx, pos: int, x: Exits)
    requires b.If? && CodeAt(code, pos, StmtCode(b, k, pos, x))
    ensures var pa := pos + |ExprCode(b.cond, k)| + 1;
            var pb := pa + StmtSize(b.thn, k) + 1;
            && CodeAt(code, pos, ExprCode(b.cond, k))
            && 0 <= pa - 1 < |code| && code[pa - 1] == Cbz(pb - (pa - 1))
            && CodeAt(code, pa, StmtCode(b.thn, k, pa, x))
            && 0 <= pb - 1 < |code| && code[pb - 1] == B(pos + StmtSize(b, k) - (pb - 1))
            && (b.els.Just? ==> CodeAt(code, pb, StmtCode(b.els.get, k, pb, x)))
            && pos + StmtSize(b, k) == pb + if b.els.Just? then StmtSize(b.els.get, k) else 0
  {
    hide CodeAt, ExprCode;
    var cc := ExprCode(b.cond, k);
    var pa := pos + |cc| + 1;
    var pb := pa + StmtSize(b.thn, k) + 1;
    var c2 := StmtCode(b.thn, k, pa, x);
    var c4 := if b.els.Just? then StmtCode(b.els.get, k, pb, x) else [];
    FiveParts(code, pos, cc, Cbz(StmtSize(b.thn, k) + 2), c2, [], B(pos + StmtSize(b, k) - (pb - 1)), c4);
  }

  lemma {:induction false} IfSim(im: Image, k: Ctx, b: Stmt, seek: int, pos: int, x: Exits, env: Env, sp: int, m: Ram, t: Trace, fuel: nat, s: State) returns (s': State)
    requires b.If?
    requires Start(im, k, env, sp, m, t, s) && StmtOk(b) && -1 <= seek < |Cases(b)|
    requires CodeAt(im.code, pos, StmtCode(b, k, pos, x)) && s.pc == EntryOf(b, k, pos, seek)
    requires ExecIf(im.pl, im.p, b, seek, env, sp, m, t, fuel).Ok?
    ensures Exited(im, env, sp, s, s', ExecIf(im.pl, im.p, b, seek, env, sp, m, t, fuel), pos + StmtSize(b, k), x)
    decreases fuel, b, 3
  {
    if seek < 0 {
      s' := IfEval(im, k, b, pos, x, env, sp, m, t, fuel, s);
    } else {
      s' := IfSeek(im, k, b, seek, pos, x, env, sp, m, t, fuel, s);
    }
  }

  lemma IfCases(b: Stmt, k: Ctx, pos: int, seek: int)
    requires b.If? && 0 <= seek < |Cases(b)|
    ensures var n := |Cases(b.thn)|;
            var pa := pos + |ExprCode(b.cond, k)| + 1;
            if seek < n then CaseAt(b, k, pos)[seek] == CaseAt(b.thn, k, pa)[seek]
            else b.els.Just? && seek - n < |Cases(b.els.get)|
                 && CaseAt(b, k, pos)[seek] == CaseAt(b.els.get, k, pa + StmtSize(b.thn, k) + 1)[seek - n]
  {
  }

  /** Jumping into one of the two branches. */
  lemma {:induction false} IfSeek(im: Image, k: Ctx, b: Stmt, seek: int, pos: int, x: Exits, env: Env, sp: int, m: Ram, t: Trace, fuel: nat, s: State) returns (s': State)
    requires b.If? && 0 <= seek < |Cases(b)| && Start(im, k, env, sp, m, t, s) && StmtOk(b)
    requires CodeAt(im.code, pos, StmtCode(b, k, pos, x)) && s.pc == CaseAt(b, k, pos)[seek]
    requires ExecIf(im.pl, im.p, b, seek, env, sp, m, t, fuel).Ok?
    ensures Exited(im, env, sp, s, s', ExecIf(im.pl, im.p, b, seek, env, sp, m, t, fuel), pos + StmtSize(b, k), x)
    decreases fuel, b, 2
  {
    hide Linked, Room, Agree, Reaches, CodeAt, Kept, Exec, Eval, ExprCode, StmtCode, StmtSize, Cases, CaseAt;
    IfParts(im.code, b, k, pos, x);
    IfCases(b, k, pos, seek);
    var pa := pos + |ExprCode(b.cond, k)| + 1;
    var pb := pa + StmtSize(b.thn, k) + 1;
    if seek >= |Cases(b.thn)| {
      s' := StmtSim(im, k, b.els.get, seek - |Cases(b.thn)|, pb, x, env, sp, m, t, fuel, s);
      return;
    }
    var s1 := StmtSim(im, k, b.thn, seek, pa, x, env, sp, m, t, fuel, s);
    s' := ThenJump(im, env, sp, s, s1, Exec(im.pl, im.p, b.thn, seek, env, sp, m, t, fuel), pb - 1, pos + StmtSize(b, k), x);
  }

  /** The condition, then one of the two branches. */
  lemma {:induction false} IfEval(im: Image, k: Ctx, b: Stmt, pos: int, x: Exits, env: Env, sp: int, m: Ram, t: Trace, fuel: nat, s: State) returns (s': State)
    requires b.If? && Start(im, k, env, sp, m, t, s) && StmtOk(b)
    requires CodeAt(im.code, pos, StmtCode(b, k, pos, x)) && s.pc == pos
    requires ExecIf(im.pl, im.p, b, -1, env, sp, m, t, fuel).Ok?
    ensures Exited(im, env, sp, s, s', ExecIf(im.pl, im.p, b, -1, env, sp, m, t, fuel), pos + StmtSize(b, k), x)
    decreases fuel, b, 2
  {
    hide Linked, Room, Agree, Reaches, CodeAt, Kept, Exec, Eval, ExprCode, StmtCode, StmtSize, Cases;
    IfParts(im.code, b, k, pos, x);
    var pa := pos + |ExprCode(b.cond, k)| + 1;
    var pb := pa + StmtSize(b.thn, k) + 1;
    var end := pos + StmtSize(b, k);
    var rc := Eval(im.pl, im.p, b.cond, env, sp, m, t, fuel);
    assert ExecIf(im.pl, im.p, b, -1, env, sp, m, t, fuel) == ExecBranch(im, b, rc.v != 0, env, sp, rc.m, rc.t, fuel);
    var s1 := ExprSim(im, k, b.cond, env, sp, m, t, fuel, s);
    var s2 := BranchSim(im, env, sp, rc.m, rc.t, s1, Cbz(pb - (pa - 1)));
    LandsThen(im, env, sp, s, s1, s2, s1.pc, s2.pc, rc.m, rc.t, rc.m, rc.t);
    s' := BranchesSim(im, k, b, rc.v != 0, pa, pb, end, x, env, sp, rc.m, rc.t, fuel, s2);
    LandsExited(im, env, sp, s, s2, s', rc.m, rc.t, ExecIf(im.pl, im.p, b, -1, env, sp, m, t, fuel), end, x);
  }

  ghost function ExecBranch(im: Image, b: Stmt, c: bool, env: Env, sp: int, m: Ram, t: Trace, fuel: nat): Outcome<Exit>
    requires b.If?
  {
    if c then Exec(im.pl, im.p, b.thn, -1, env, sp, m, t, fuel)
    else if b.els.Just? then Exec(im.pl, im.p, b.els.get, -1, env, sp, m, t, fuel)
    else Ok(Normal, m, t)
  }

  lemma {:induction false} BranchesSim(im: Image, k: Ctx, b: Stmt, c: bool, pa: int, pb: int, end: int, x: Exits, env: Env, sp: int, m: Ram, t: Trace, fuel: nat, s: State) returns (s': State)
    requires b.If? && Start(im, k, env, sp, m, t, s) && StmtOk(b)
    requires CodeAt(im.code, pa, StmtCode(b.thn, k, pa, x)) && pb == pa + StmtSize(b.thn, k) + 1
    requires 0 <= pb - 1 < |im.code| && im.code[pb - 1] == B(end - (pb - 1))
    requires b.els.Just? ==> CodeAt(im.code, pb, StmtCode(b.els.get, k, pb, x))
    requires end == pb + if b.els.Just? then StmtSize(b.els.get, k) else 0
    requires s.pc == if c then pa else pb
    requires ExecBranch(im, b, c, env, sp, m, t, fuel).Ok?
    ensures Exited(im, env, sp, s, s', ExecBranch(im, b, c, env, sp, m, t, fuel), end, x)
    decreases fuel, b, 1
  {
    hide Linked, Room, Agree, Reaches, CodeAt, Kept, Exec, StmtCode;
    if c {
      var s1 := StmtSim(im, k, b.thn, -1, pa, x, env, sp, m, t, fuel, s);
      s' := ThenJump(im, env, sp, s, s1, Exec(im.pl, im.p, b.thn, -1, env, sp, m, t, fuel), pb - 1, end, x);
    } else if b.els.Just? {
      s' := StmtSim(im, k, b.els.get, -1, pb, x, env, sp, m, t, fuel, s);
    } else {
      ListDone(im, env, sp, s, m, t, pb, x);
      s' := s;
    }
  }

  // ---------- the loop guard ----------

  lemma TickSim(im: Image, k: Ctx, env: Env, sp: int, m: Ram, t: Trace, pos: int, out: int, s: State) returns (s': State)
    requires Start(im, k, env, sp, m, t, s) && s.pc == pos && CodeAt(im.code, pos, TickCode(k, pos, out))
    ensures var (go, t1) := Tick(im.pl, im.p, t);
            Lands(im, env, sp, s, s', if go then pos + TickSize(k) else out, m, t1)
  {
    hide Room, Reaches, CodeAt, Agree, Kept, LoadImm;
    if k.tick == 0 {
      Stay(im, env, sp, s, m, t);
      return s;
    }
    TickParts(im.code, k, pos, out);
    var s1 := KernelSim(im, env, sp, m, t, s, k.tick, []);
    var t1 := Tick(im.pl, im.p, t).1;
    s' := BranchSim(im, env, sp, m, t1, s1, Cbz(out - (pos + 5)));
    LandsThen(im, env, sp, s, s1, s', s1.pc, s'.pc, m, t1, m, t1);
  }

  lemma TickParts(code: Code, k: Ctx, pos: int, out: int)
    requires k.tick != 0 && CodeAt(code, pos, TickCode(k, pos, out))
    ensures CodeAt(code, pos, LoadImm(9, k.tick) + [Blr(9)])
    ensures 0 <= pos + 5 < |code| && code[pos + 5] == Cbz(out - (pos + 5))
  {
    var c1, c2 := LoadImm(9, k.tick) + [Blr(9)], [Cbz(out - (pos + 5))];
    assert TickCode(k, pos, out) == c1 + c2;
    Split(code, pos, c1, c2);
    At(code, pos + 5, c2, 0);
  }

  // ---------- while ----------

  lemma WhileParts(code: Code, b: Stmt, k: Ctx, pos: int, x: Exits)
    requires b.While? && CodeAt(code, pos, StmtCode(b, k, pos, x))
    ensures var pb := pos + |ExprCode(b.cond, k)| + 1;
            var pt := pb + StmtSize(b.body, k);
            var end := pos + StmtSize(b, k);
            && end == pt + TickSize(k) + 1
            && CodeAt(code, pos, ExprCode(b.cond, k))
            && 0 <= pb - 1 < |code| && code[pb - 1] == Cbz(end - (pb - 1))
            && CodeAt(code, pb, StmtCode(b.body, k, pb, Exits(end, pos, x.ret)))
            && CodeAt(code, pt, TickCode(k, pt, end))
            && 0 <= end - 1 < |code| && code[end - 1] == B(pos - (end - 1))
  {
    hide CodeAt, ExprCode, TickCode;
    var cc := ExprCode(b.cond, k);
    var pb := pos + |cc| + 1;
    var pt := pb + StmtSize(b.body, k);
    var end := pos + StmtSize(b, k);
    var c2 := StmtCode(b.body, k, pb, Exits(end, pos, x.ret));
    var c := cc + [Cbz(end - (pb - 1))] + c2 + TickCode(k, pt, end) + [B(pos - (end - 1))];
    assert StmtCode(b, k, pos, x) == c;
    assert c == c + [];
    FiveParts(code, pos, cc, Cbz(end - (pb - 1)), c2, TickCode(k, pt, end), B(pos - (end - 1)), []);
  }

  lemma {:induction false} WhileSim(im: Image, k: Ctx, b: Stmt, seek: int, pos: int, x: Exits, env: Env, sp: int, m: Ram, t: Trace, fuel: nat, s: State) returns (s': State)
    requires b.While?
    requires Start(im, k, env, sp, m, t, s) && StmtOk(b) && -1 <= seek < |Cases(b)|
    requires CodeAt(im.code, pos, StmtCode(b, k, pos, x)) && s.pc == EntryOf(b, k, pos, seek)
    requires ExecWhile(im.pl, im.p, b, seek, env, sp, m, t, fuel).Ok?
    ensures Exited(im, env, sp, s, s', ExecWhile(im.pl, im.p, b, seek, env, sp, m, t, fuel), pos + StmtSize(b, k), x)
    decreases fuel, b, 3
  {
    hide Start, CodeAt, StmtCode, StmtSize, StmtOk, Exited;
    if seek < 0 {
      s' := WhileEval(im, k, b, pos, x, env, sp, m, t, fuel, s);
    } else {
      s' := WhileSeek(im, k, b, seek, pos, x, env, sp, m, t, fuel, s);
    }
  }

  lemma WhileCases(b: Stmt, k: Ctx, pos: int)
    requires b.While?
    ensures Cases(b) == Cases(b.body) && CaseAt(b, k, pos) == CaseAt(b.body, k, pos + |ExprCode(b.cond, k)| + 1)
  {
  }

  lemma {:induction false} WhileSeek(im: Image, k: Ctx, b: Stmt, seek: int, pos: int, x: Exits, env: Env, sp: int, m: Ram, t: Trace, fuel: nat, s: State) returns (s': State)
    requires b.While? && 0 <= seek < |Cases(b)| && Start(im, k, env, sp, m, t, s) && StmtOk(b)
    requires CodeAt(im.code, pos, StmtCode(b, k, pos, x)) && s.pc == CaseAt(b, k, pos)[seek]
    requires ExecWhile(im.pl, im.p, b, seek, env, sp, m, t, fuel).Ok?
    ensures Exited(im, env, sp, s, s', ExecWhile(im.pl, im.p, b, seek, env, sp, m, t, fuel), pos + StmtSize(b, k), x)
    decreases fuel, b, 2
  {
    hide Linked, Room, Agree, Reaches, CodeAt, Kept, Exec, Eval, ExprCode, StmtCode, StmtSize, Cases, CaseAt, AfterWhileBody, TickCode;
    WhileParts(im.code, b, k, pos, x);
    WhileCases(b, k, pos);
    var pb := pos + |ExprCode(b.cond, k)| + 1;
    var r := Exec(im.pl, im.p, b.body, seek, env, sp, m, t, fuel);
    AfterWhileOk(im, b, r, env, sp, fuel);
    var s1 := StmtSim(im, k, b.body, seek, pb, Exits(pos + StmtSize(b, k), pos, x.ret), env, sp, m, t, fuel, s);
    s' := WhileRestSim(im, k, b, r, pos, x, env, sp, fuel, s, s1);
  }

  lemma {:induction false} WhileEval(im: Image, k: Ctx, b: Stmt, pos: int, x: Exits, env: Env, sp: int, m: Ram, t: Trace, fuel: nat, s: State) returns (s': State)
    requires b.While? && Start(im, k, env, sp, m, t, s) && StmtOk(b)
    requires CodeAt(im.code, pos, StmtCode(b, k, pos, x)) && s.pc == pos
    requires ExecWhile(im.pl, im.p, b, -1, env, sp, m, t, fuel).Ok?
    ensures Exited(im, env, sp, s, s', ExecWhile(im.pl, im.p, b, -1, env, sp, m, t, fuel), pos + StmtSize(b, k), x)
    decreases fuel, b, 2
  {
    hide Linked, Room, Agree, Reaches, CodeAt, Kept, Exec, Eval, ExprCode, StmtCode, StmtSize, AfterWhileBody, TickCode, Cases;
    WhileParts(im.code, b, k, pos, x);
    var pb := pos + |ExprCode(b.cond, k)| + 1;
    var end := pos + StmtSize(b, k);
    var inner := Exits(end, pos, x.ret);
    var rc := Eval(im.pl, im.p, b.cond, env, sp, m, t, fuel);
    var s1 := ExprSim(im, k, b.cond, env, sp, m, t, fuel, s);
    var s2 := BranchSim(im, env, sp, rc.m, rc.t, s1, Cbz(end - (pb - 1)));
    LandsThen(im, env, sp, s, s1, s2, s1.pc, s2.pc, rc.m, rc.t, rc.m, rc.t);
    if rc.v == 0 {
      return s2;
    }
    var r := Exec(im.pl, im.p, b.body, -1, env, sp, rc.m, rc.t, fuel);
    AfterWhileOk(im, b, r, env, sp, fuel);
    var s3 := StmtSim(im, k, b.body, -1, pb, inner, env, sp, rc.m, rc.t, fuel, s2);
    LandsExited(im, env, sp, s, s2, s3, rc.m, rc.t, r, pb + StmtSize(b.body, k), inner);
    s' := WhileRestSim(im, k, b, r, pos, x, env, sp, fuel, s, s3);
  }

  lemma AfterWhileOk(im: Image, b: Stmt, r: Outcome<Exit>, env: Env, sp: int, fuel: nat)
    requires b.While? && AfterWhileBody(im.pl, im.p, b, r, env, sp, fuel).Ok?
    ensures r.Ok?
  {
  }

  /** After the body of a `while`: leave, or go round again. */
  lemma {:induction false} WhileRestSim(im: Image, k: Ctx, b: Stmt, r: Outcome<Exit>, pos: int, x: Exits, env: Env, sp: int, fuel: nat, s: State, s1: State) returns (s': State)
    requires b.While? && Linked(im) && k == Ctx(env.offs, im.names, im.p.externs, im.p.tick)
    requires Room(im.p.limit, env, sp) && StmtOk(b)
    requires CodeAt(im.code, pos, StmtCode(b, k, pos, x))
    requires Exited(im, env, sp, s, s1, r, pos + |ExprCode(b.cond, k)| + 1 + StmtSize(b.body, k), Exits(pos + StmtSize(b, k), pos, x.ret))
    requires AfterWhileBody(im.pl, im.p, b, r, env, sp, fuel).Ok?
    ensures Exited(im, env, sp, s, s', AfterWhileBody(im.pl, im.p, b, r, env, sp, fuel), pos + StmtSize(b, k), x)
    decreases fuel, b, 0
  {
    hide Linked, Room, Agree, Reaches, CodeAt, Kept, Exec, Eval, ExprCode, StmtCode, StmtSize, Cases, TickCode;
    var end := pos + StmtSize(b, k);
    var pt := end - 1 - TickSize(k);
    WhileParts(im.code, b, k, pos, x);
    if r.v.Broke? || r.v.Returned? {
      return s1;
    }
    if r.v.Continued? {
      s' := StmtSim(im, k, b, -1, pos, x, env, sp, r.m, r.t, fuel - 1, s1);
      LandsExited(im, env, sp, s, s1, s', r.m, r.t, Exec(im.pl, im.p, b, -1, env, sp, r.m, r.t, fuel - 1), end, x);
      return;
    }
    var (go, t1) := Tick(im.pl, im.p, r.t);
    var s2 := TickSim(im, k, env, sp, r.m, r.t, pt, end, s1);
    LandsThen(im, env, sp, s, s1, s2, s1.pc, s2.pc, r.m, r.t, r.m, t1);
    if !go {
      return s2;
    }
    var s3 := BranchSim(im, env, sp, r.m, t1, s2, B(pos - (end - 1)));
    LandsThen(im, env, sp, s, s2, s3, s2.pc, s3.pc, r.m, t1, r.m, t1);
    s' := StmtSim(im, k, b, -1, pos, x, env, sp, r.m, t1, fuel - 1, s3);
    LandsExited(im, env, sp, s, s3, s', r.m, t1, Exec(im.pl, im.p, b, -1, env, sp, r.m, t1, fuel - 1), end, x);
  }

  // ---------- for ----------

  lemma ForCode(b: Stmt, k: Ctx, pos: int, x: Exits)
    requires b.For?
    ensures var pc, pb, pi, end := ForTestAt(b, k, pos), ForBodyAt(b, k, pos), ForIncAt(b, k, pos), pos + StmtSize(b, k);
            var pt := pi + |OptExpr(b.inc, k)|;
            && end == pt + TickSize(k) + 1
            && StmtCode(b, k, pos, x) ==
                 (if b.init.Just? then StmtCode(b.init.get, k, pos, x) else []) + OptExpr(b.test, k)
                 + (if b.test.Just? then [Cbz(end - (pb - 1))] else []) + StmtCode(b.body, k, pb, Exits(end, pi, x.ret))
                 + OptExpr(b.inc, k) + TickCode(k, pt, end) + [B(pc - (end - 1))]
  {
    hide ExprCode, OptExpr, TickCode;
  }

  lemma ForParts(code: Code, b: Stmt, k: Ctx, pos: int, x: Exits)
    requires b.For? && CodeAt(code, pos, StmtCode(b, k, pos, x))
    ensures var pc := ForTestAt(b, k, pos);
            var pb := ForBodyAt(b, k, pos);
            var pi := ForIncAt(b, k, pos);
            var pt := pi + |OptExpr(b.inc, k)|;
            var end := pos + StmtSize(b, k);
            && end == pt + TickSize(k) + 1
            && (b.init.Just? ==> CodeAt(code, pos, StmtCode(b.init.get, k, pos, x)))
            && CodeAt(code, pc, OptExpr(b.test, k))
            && (b.test.Just? ==> 0 <= pb - 1 < |code| && code[pb - 1] == Cbz(end - (pb - 1)))
            && CodeAt(code, pb, StmtCode(b.body, k, pb, Exits(end, pi, x.ret)))
            && CodeAt(code, pi, OptExpr(b.inc, k))
            && CodeAt(code, pt, TickCode(k, pt, end))
            && 0 <= end - 1 < |code| && code[end - 1] == B(pc - (end - 1))
  {
    hide CodeAt, StmtCode, ExprCode, OptExpr, TickCode;
    var pc := ForTestAt(b, k, pos);
    var pb := ForBodyAt(b, k, pos);
    var pi := ForIncAt(b, k, pos);
    var pt := pi + |OptExpr(b.inc, k)|;
    var end := pos + StmtSize(b, k);
    var c0 := if b.init.Just? then StmtCode(b.init.get, k, pos, x) else [];
    var c1 := OptExpr(b.test, k);
    var c2 := if b.test.Just? then [Cbz(end - (pb - 1))] else [];
    var c3 := StmtCode(b.body, k, pb, Exits(end, pi, x.ret));
    var c4 := OptExpr(b.inc, k);
    var c5 := TickCode(k, pt, end);
    var c6 := [B(pc - (end - 1))];
    ForCode(b, k, pos, x);
    SevenParts(code, pos, c0, c1, c2, c3, c4, c5, c6);
    if b.test.Just? {
      At(code, pb - 1, c2, 0);
    }
    At(code, end - 1, c6, 0);
  }

  lemma SevenParts(code: Code, pos: int, c0: Code, c1: Code, c2: Code, c3: Code, c4: Code, c5: Code, c6: Code)
    requires CodeAt(code, pos, c0 + c1 + c2 + c3 + c4 + c5 + c6)
    ensures CodeAt(code, pos, c0) && CodeAt(code, pos + |c0|, c1) && CodeAt(code, pos + |c0| + |c1|, c2)
    ensures CodeAt(code, pos + |c0| + |c1| + |c2|, c3) && CodeAt(code, pos + |c0| + |c1| + |c2| + |c3|, c4)
    ensures CodeAt(code, pos + |c0| + |c1| + |c2| + |c3| + |c4|, c5)
    ensures CodeAt(code, pos + |c0| + |c1| + |c2| + |c3| + |c4| + |c5|, c6)
  {
    hide CodeAt;
    Split(code, pos, c0 + c1 + c2 + c3 + c4 + c5, c6);
    Split(code, pos, c0 + c1 + c2 + c3 + c4, c5);
    Split(code, pos, c0 + c1 + c2 + c3, c4);
    Split(code, pos, c0 + c1 + c2, c3);
    Split(code, pos, c0 + c1, c2);
    Split(code, pos, c0, c1);
  }

  lemma {:induction false} ForSim(im: Image, k: Ctx, b: Stmt, seek: int, pos: int, x: Exits, env: Env, sp: int, m: Ram, t: Trace, fuel: nat, s: State) returns (s': State)
    requires b.For? && -1 <= seek < |Cases(b)| && Start(im, k, env, sp, m, t, s) && StmtOk(b)
    requires CodeAt(im.code, pos, StmtCode(b, k, pos, x)) && s.pc == EntryOf(b, k, pos, seek)
    requires ExecFor(im.pl, im.p, b, seek, env, sp, m, t, fuel).Ok?
    ensures Exited(im, env, sp, s, s', ExecFor(im.pl, im.p, b, seek, env, sp, m, t, fuel), pos + StmtSize(b, k), x)
    decreases fuel, b, 3
  {
    hide Linked, Room, Agree, Reaches, CodeAt, Kept, Exec, Eval, ExprCode, StmtCode, StmtSize, Cases, CaseAt, AfterForBody, ForLoop, TickCode, ForTestAt, ForBodyAt, ForIncAt, OptExpr;
    ForParts(im.code, b, k, pos, x);
    ForCases(b, k, pos);
    var end := pos + StmtSize(b, k);
    if seek >= 0 {
      var r := Exec(im.pl, im.p, b.body, seek, env, sp, m, t, fuel);
      AfterForOk(im, b, r, env, sp, fuel);
      var s1 := StmtSim(im, k, b.body, seek, ForBodyAt(b, k, pos), Exits(end, ForIncAt(b, k, pos), x.ret), env, sp, m, t, fuel, s);
      s' := ForRestSim(im, k, b, r, pos, x, env, sp, fuel, s, s1);
      return;
    }
    if b.init.Nothing? {
      s' := ForLoopSim(im, k, b, pos, x, env, sp, m, t, fuel, s);
      return;
    }
    var r := Exec(im.pl, im.p, b.init.get, -1, env, sp, m, t, fuel);
    var s1 := StmtSim(im, k, b.init.get, -1, pos, x, env, sp, m, t, fuel, s);
    if !r.v.Normal? {
      return s1;
    }
    s' := ForLoopSim(im, k, b, pos, x, env, sp, r.m, r.t, fuel, s1);
    LandsExited(im, env, sp, s, s1, s', r.m, r.t, ForLoop(im.pl, im.p, b, env, sp, r.m, r.t, fuel), end, x);
  }

  lemma ForCases(b: Stmt, k: Ctx, pos: int)
    requires b.For?
    ensures Cases(b) == Cases(b.body) && CaseAt(b, k, pos) == CaseAt(b.body, k, ForBodyAt(b, k, pos))
    ensures ForTestAt(b, k, pos) == pos + if b.init.Just? then StmtSize(b.init.get, k) else 0
    ensures ForBodyAt(b, k, pos) == ForTestAt(b, k, pos) + |OptExpr(b.test, k)| + if b.test.Just? then 1 else 0
    ensures ForIncAt(b, k, pos) == ForBodyAt(b, k, pos) + StmtSize(b.body, k)
    ensures b.test.Just? ==> OptExpr(b.test, k) == ExprCode(b.test.get, k)
    ensures b.test.Nothing? ==> OptExpr(b.test, k) == []
    ensures b.inc.Just? ==> OptExpr(b.inc, k) == ExprCode(b.inc.get, k)
    ensures b.inc.Nothing? ==> OptExpr(b.inc, k) == []
  {
  }

  lemma AfterForOk(im: Image, b: Stmt, r: Outcome<Exit>, env: Env, sp: int, fuel: nat)
    requires b.For? && AfterForBody(im.pl, im.p, b, r, env, sp, fuel).Ok?
    ensures r.Ok?
  {
  }

  /** From the test of a `for` on. */
  lemma {:induction false} ForLoopSim(im: Image, k: Ctx, b: Stmt, pos: int, x: Exits, env: Env, sp: int, m: Ram, t: Trace, fuel: nat, s: State) returns (s': State)
    requires b.For? && Start(im, k, env, sp, m, t, s) && StmtOk(b)
    requires CodeAt(im.code, pos, StmtCode(b, k, pos, x)) && s.pc == ForTestAt(b, k, pos)
    requires ForLoop(im.pl, im.p, b, env, sp, m, t, fuel).Ok?
    ensures Exited(im, env, sp, s, s', ForLoop(im.pl, im.p, b, env, sp, m, t, fuel), pos + StmtSize(b, k), x)
    decreases fuel, b, 2
  {
    hide Linked, Room, Agree, Reaches, CodeAt, Kept, Exec, Eval, ExprCode, StmtCode, StmtSize, Cases, CaseAt, AfterForBody, TickCode, ForTestAt, ForBodyAt, ForIncAt, OptExpr;
    ForParts(im.code, b, k, pos, x);
    ForCases(b, k, pos);
    var pb := ForBodyAt(b, k, pos);
    var end := pos + StmtSize(b, k);
    var inner := Exits(end, ForIncAt(b, k, pos), x.ret);
    if b.test.Nothing? {
      var r := Exec(im.pl, im.p, b.body, -1, env, sp, m, t, fuel);
      AfterForOk(im, b, r, env, sp, fuel);
      var s1 := StmtSim(im, k, b.body, -1, pb, inner, env, sp, m, t, fuel, s);
      s' := ForRestSim(im, k, b, r, pos, x, env, sp, fuel, s, s1);
      return;
    }
    var rc := Eval(im.pl, im.p, b.test.get, env, sp, m, t, fuel);
    var s1 := ExprSim(im, k, b.test.get, env, sp, m, t, fuel, s);
    var s2 := BranchSim(im, env, sp, rc.m, rc.t, s1, Cbz(end - (pb - 1)));
    LandsThen(im, env, sp, s, s1, s2, s1.pc, s2.pc, rc.m, rc.t, rc.m, rc.t);
    if rc.v == 0 {
      return s2;
    }
    var r := Exec(im.pl, im.p, b.body, -1, env, sp, rc.m, rc.t, fuel);
    AfterForOk(im, b, r, env, sp, fuel);
    var s3 := StmtSim(im, k, b.body, -1, pb, inner, env, sp, rc.m, rc.t, fuel, s2);
    LandsExited(im, env, sp, s, s2, s3, rc.m, rc.t, r, ForIncAt(b, k, pos), inner);
    s' := ForRestSim(im, k, b, r, pos, x, env, sp, fuel, s, s3);
  }

  /** After the body of a `for`: leave, or increment and go round again. */
  lemma {:induction false} ForRestSim(im: Image, k: Ctx, b: Stmt, r: Outcome<Exit>, pos: int, x: Exits, env: Env, sp: int, fuel: nat, s: State, s1: State) returns (s': State)
    requires b.For? && Linked(im) && k == Ctx(env.offs, im.names, im.p.externs, im.p.tick)
    requires Room(im.p.limit, env, sp) && StmtOk(b)
    requires CodeAt(im.code, pos, StmtCode(b, k, pos, x))
    requires Exited(im, env, sp, s, s1, r, ForIncAt(b, k, pos), Exits(pos + StmtSize(b, k), ForIncAt(b, k, pos), x.ret))
    requires AfterForBody(im.pl, im.p, b, r, env, sp, fuel).Ok?
    ensures Exited(im, env, sp, s, s', AfterForBody(im.pl, im.p, b, r, env, sp, fuel), pos + StmtSize(b, k), x)
    decreases fuel, b, 1
  {
    hide Linked, Room, Agree, Reaches, CodeAt, Kept, Exec, Eval, ExprCode, StmtCode, StmtSize, Cases, CaseAt, ForAgain, TickCode, ForTestAt, ForBodyAt, ForIncAt, OptExpr;
    ForParts(im.code, b, k, pos, x);
    ForCases(b, k, pos);
    var end := pos + StmtSize(b, k);
    if r.v.Broke? || r.v.Returned? {
      return s1;
    }
    if b.inc.Nothing? {
      s' := ForAgainSim(im, k, b, pos, x, env, sp, r.m, r.t, fuel, s1);
      LandsExited(im, env, sp, s, s1, s', r.m, r.t, ForAgain(im.pl, im.p, b, env, sp, r.m, r.t, fuel), end, x);
      return;
    }
    var ri := Eval(im.pl, im.p, b.inc.get, env, sp, r.m, r.t, fuel);
    var s2 := ExprSim(im, k, b.inc.get, env, sp, r.m, r.t, fuel, s1);
    LandsThen(im, env, sp, s, s1, s2, s1.pc, s2.pc, r.m, r.t, ri.m, ri.t);
    s' := ForAgainSim(im, k, b, pos, x, env, sp, ri.m, ri.t, fuel, s2);
    LandsExited(im, env, sp, s, s2, s', ri.m, ri.t, ForAgain(im.pl, im.p, b, env, sp, ri.m, ri.t, fuel), end, x);
  }

  /** The loop guard, then back to the test. */
  lemma {:induction false} ForAgainSim(im: Image, k: Ctx, b: Stmt, pos: int, x: Exits, env: Env, sp: int, m: Ram, t: Trace, fuel: nat, s: State) returns (s': State)
    requires b.For? && Start(im, k, env, sp, m, t, s) && StmtOk(b)
    requires CodeAt(im.code, pos, StmtCode(b, k, pos, x)) && s.pc == ForIncAt(b, k, pos) + |OptExpr(b.inc, k)|
    requires ForAgain(im.pl, im.p, b, env, sp, m, t, fuel).Ok?
    ensures Exited(im, env, sp, s, s', ForAgain(im.pl, im.p, b, env, sp, m, t, fuel), pos + StmtSize(b, k), x)
    decreases fuel, b, 0
  {
    hide Linked, Room, Agree, Reaches, CodeAt, Kept, Exec, Eval, ExprCode, StmtCode, StmtSize, ForLoop, TickCode, ForTestAt, ForBodyAt, ForIncAt, OptExpr;
    ForParts(im.code, b, k, pos, x);
    var end := pos + StmtSize(b, k);
    var (go, t1) := Tick(im.pl, im.p, t);
    var s1 := TickSim(im, k, env, sp, m, t, s.pc, end, s);
    if !go {
      return s1;
    }
    var s2 := BranchSim(im, env, sp, m, t1, s1, B(ForTestAt(b, k, pos) - (end - 1)));
    LandsThen(im, env, sp, s, s1, s2, s1.pc, s2.pc, m, t1, m, t1);
    s' := ForLoopSim(im, k, b, pos, x, env, sp, m, t1, fuel - 1, s2);
    LandsExited(im, env, sp, s, s2, s', m, t1, ForLoop(im.pl, im.p, b, env, sp, m, t1, fuel - 1), end, x);
  }

  // ---------- switch ----------

  lemma SwitchParts(code: Code, b: Stmt, k: Ctx, pos: int, x: Exits)
    requires b.Switch? && CodeAt(code, pos, StmtCode(b, k, pos, x))
    ensures var cs := Cases(b.body);
            var cc := ExprCode(b.cond, k);
            var pb := pos + SwitchHead(b.cond, b.body, k);
            var at := CaseAt(b.body, k, pb);
            var end := pos + StmtSize(b, k);
            && end == pb + StmtSize(b.body, k) && pb - 1 == pos + |cc| + ChainSize(cs, |cs|)
            && CodeAt(code, pos, cc)
            && CodeAt(code, pos + |cc|, ChainCode(cs, at, pos + |cc|, |cs|))
            && 0 <= pb - 1 < |code| && code[pb - 1] == B(Otherwise(cs, at, end) - (pb - 1))
            && CodeAt(code, pb, StmtCode(b.body, k, pb, Exits(end, x.cont, x.ret)))
  {
    hide CodeAt, ChainCode, ChainSize, CaseAt, Cases, ExprCode, Otherwise;
    var cs := Cases(b.body);
    var cc := ExprCode(b.cond, k);
    var pb := pos + SwitchHead(b.cond, b.body, k);
    var at := CaseAt(b.body, k, pb);
    var end := pos + StmtSize(b, k);
    var c1 := ChainCode(cs, at, pos + |cc|, |cs|);
    var c2 := [B(Otherwise(cs, at, end) - (pb - 1))];
    var c3 := StmtCode(b.body, k, pb, Exits(end, x.cont, x.ret));
    Split(code, pos, cc + c1 + c2, c3);
    Split(code, pos, cc + c1, c2);
    Split(code, pos, cc, c1);
    At(code, pb - 1, c2, 0);
  }

  /** One label of the dispatch chain: compare and perhaps jump. */
  lemma LabelSim(im: Image, env: Env, sp: int, m: Ram, t: Trace, v: U64, at: int, s: State) returns (s': State)
    requires Matches(env, sp, m, t, s)
    requires CodeAt(im.code, s.pc, LoadImm(1, v) + [CmpReg(0, 1), Bcond(EQ, at - (s.pc + 5))])
    ensures Lands(im, env, sp, s, s', if s.regs[0] == v then at else s.pc + 6, m, t)
    ensures s'.regs[0] == s.regs[0]
  {
    hide CodeAt, Reaches, Agree, LoadImm;
    var tail := [CmpReg(0, 1), Bcond(EQ, at - (s.pc + 5))];
    Split(im.code, s.pc, LoadImm(1, v), tail);
    var s1 := LoadImmRuns(im, s, 1, v);
    At(im.code, s1.pc, tail, 0);
    At(im.code, s1.pc, tail, 1);
    var s2 := Compare(s1, s1.regs[0], s1.regs[1]);
    One(im, s1, tail[0], s2);
    s' := s2.(pc := if s2.z then at else s2.pc + 1);
    One(im, s2, tail[1], s');
    Chain(im, s, s1, s2);
    Chain(im, s, s2, s');
  }

  /** The dispatch chain finds the label that the switch means, or falls through. */
  lemma {:induction false} ChainSim(im: Image, env: Env, sp: int, m: Ram, t: Trace, cs: seq<Label>, at: seq<int>, n: nat, s: State) returns (s': State)
    requires n <= |cs| == |at| && Matches(env, sp, m, t, s)
    requires CodeAt(im.code, s.pc, ChainCode(cs, at, s.pc, n))
    ensures var j := Matching(cs, s.regs[0], n);
            Lands(im, env, sp, s, s', if j >= 0 then at[j] else s.pc + ChainSize(cs, n), m, t)
    ensures s'.regs[0] == s.regs[0]
    decreases n
  {
    hide CodeAt, Reaches, Agree, Kept, LoadImm;
    if n == 0 {
      Stay(im, env, sp, s, m, t);
      return s;
    }
    if cs[n - 1].Default? {
      s' := ChainSim(im, env, sp, m, t, cs, at, n - 1, s);
      return;
    }
    var v := cs[n - 1].val;
    Split(im.code, s.pc, LoadImm(1, v) + [CmpReg(0, 1), Bcond(EQ, at[n - 1] - (s.pc + 5))], ChainCode(cs, at, s.pc + 6, n - 1));
    var s1 := LabelSim(im, env, sp, m, t, v, at[n - 1], s);
    if s.regs[0] == v {
      return s1;
    }
    s' := ChainSim(im, env, sp, m, t, cs, at, n - 1, s1);
    LandsThen(im, env, sp, s, s1, s', s1.pc, s'.pc, m, t, m, t);
  }

  /** The whole dispatch: to the label the switch means, or to its end. */
  lemma DispatchSim(im: Image, env: Env, sp: int, m: Ram, t: Trace, cs: seq<Label>, at: seq<int>, end: int, s: State) returns (s': State)
    requires |cs| == |at| && Matches(env, sp, m, t, s)
    requires CodeAt(im.code, s.pc, ChainCode(cs, at, s.pc, |cs|))
    requires 0 <= s.pc + ChainSize(cs, |cs|) < |im.code|
    requires im.code[s.pc + ChainSize(cs, |cs|)] == B(Otherwise(cs, at, end) - (s.pc + ChainSize(cs, |cs|)))
    ensures var j := Target(cs, s.regs[0]);
            Lands(im, env, sp, s, s', if j >= 0 then at[j] else end, m, t)
  {
    hide CodeAt, Reaches, Agree, Kept, ChainCode, ChainSize;
    var s1 := ChainSim(im, env, sp, m, t, cs, at, |cs|, s);
    if Matching(cs, s.regs[0], |cs|) >= 0 {
      return s1;
    }
    s' := BranchSim(im, env, sp, m, t, s1, im.code[s1.pc]);
    LandsThen(im, env, sp, s, s1, s', s1.pc, s'.pc, m, t, m, t);
  }

  lemma {:induction false} SwitchSim(im: Image, k: Ctx, b: Stmt, pos: int, x: Exits, env: Env, sp: int, m: Ram, t: Trace, fuel: nat, s: State) returns (s': State)
    requires b.Switch? && Start(im, k, env, sp, m, t, s) && StmtOk(b)
    requires CodeAt(im.code, pos, StmtCode(b, k, pos, x)) && s.pc == pos
    requires ExecSwitch(im.pl, im.p, b, env, sp, m, t, fuel).Ok?
    ensures Exited(im, env, sp, s, s', ExecSwitch(im.pl, im.p, b, env, sp, m, t, fuel), pos + StmtSize(b, k), x)
    decreases fuel, b, 3
  {
    hide Linked, Room, Agree, Reaches, CodeAt, Kept, Exec, Eval, ExprCode, StmtCode, StmtSize, Cases, CaseAt, ChainCode, ChainSize, SwitchHead, Otherwise, Target;
    SwitchParts(im.code, b, k, pos, x);
    var cs := Cases(b.body);
    var pb := pos + SwitchHead(b.cond, b.body, k);
    var at := CaseAt(b.body, k, pb);
    var end := pos + StmtSize(b, k);
    var rc := Eval(im.pl, im.p, b.cond, env, sp, m, t, fuel);
    var s1 := ExprSim(im, k, b.cond, env, sp, m, t, fuel, s);
    var s2 := DispatchSim(im, env, sp, rc.m, rc.t, cs, at, end, s1);
    LandsThen(im, env, sp, s, s1, s2, s1.pc, s2.pc, rc.m, rc.t, rc.m, rc.t);
    var j := Target(cs, rc.v);
    if j < 0 {
      return s2;
    }
    var r := Exec(im.pl, im.p, b.body, j, env, sp, rc.m, rc.t, fuel);
    s' := StmtSim(im, k, b.body, j, pb, Exits(end, x.cont, x.ret), env, sp, rc.m, rc.t, fuel, s2);
    LandsExited(im, env, sp, s, s2, s', rc.m, rc.t, r, end, Exits(end, x.cont, x.ret));
  }
}
