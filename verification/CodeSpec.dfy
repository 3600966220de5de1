/**
 The code each construct compiles to, given directly with every branch distance known.
 The back-patching generator is shown elsewhere to produce exactly this.
 */
module CodeSpec {
  import opened Memory
  import opened Isa
  import opened Csyntax

  /** `entry` has the addresses of the program's own functions, `externs` those of the kernel's. */
  datatype Ctx = Ctx(offs: seq<nat>, entry: map<string, U64>, externs: map<string, U64>, tick: U64)

  /** Where `break`, `continue` and `return` go, as instruction indices. */
  datatype Exits = Exits(brk: int, cont: int, ret: int)

  type Code = seq<Instr>

  /** Words in the 256 KiB code buffer. */
  const BUFFER: nat := 0x10000

  function Field(v: U64, hw: nat): nat {
    if hw == 0 then v % 0x10000
    else if hw == 1 then v / 0x1_0000 % 0x10000
    else if hw == 2 then v / 0x1_0000_0000 % 0x10000
    else v / 0x1_0000_0000_0000 % 0x10000
  }

  function LoadImm(r: nat, v: U64): (c: Code)
    ensures |c| == 4
  {
    [Movz(r, Field(v, 0)), Movk(r, Field(v, 1), 1), Movk(r, Field(v, 2), 2), Movk(r, Field(v, 3), 3)]
  }

  /** `r = x29 - off`, through x9 when the offset has no immediate form. */
  function SlotAddress(r: nat, off: U64): Code {
    if off <= 0xFFF then [SubImm(r, FP, off)] else LoadImm(9, off) + [SubReg(r, FP, 9)]
  }

  function LoadCode(ty: Ty): Code {
    if ty.Array? then [] else if ty.Size() == 1 then [Ldrb(0, 0)] else [Ldr(0, 0)]
  }

  function StoreCode(ty: Ty): Code {
    if ty.Size() == 1 then [Strb(0, 1)] else [Str(0, 1)]
  }

  function Invert(cond: nat): nat {
    if cond % 2 == 0 then cond + 1 else cond - 1
  }

  function Cset(cond: nat): Code {
    [Csinc(0, Invert(cond))]
  }

  function OpCode(op: BinOp): Code {
    match op
    case Add => [AddReg(0, 0, 1)]
    case Sub => [SubReg(0, 0, 1)]
    case Mul => [Instr.Mul(0, 0, 1)]
    case Div => [Sdiv(0, 0, 1)]
    case Mod => [Sdiv(2, 0, 1), Msub(0, 2, 1, 0)]
    case Eq => [CmpReg(0, 1)] + Cset(EQ)
    case Ne => [CmpReg(0, 1)] + Cset(NE)
    case Lt => [CmpReg(0, 1)] + Cset(LT)
    case Le => [CmpReg(0, 1)] + Cset(LE)
  }

  function AddressCode(e: Expr, k: Ctx): Code
    decreases e, 0
  {
    match e
    case VarRef(Global(a), _) => LoadImm(0, a)
    case VarRef(Local(i), _) => if i < |k.offs| then SlotAddress(0, Wrap(k.offs[i])) else []
    case Deref(p, _) => ExprCode(p, k)
    case Member(obj, off, _) =>
      AddressCode(obj, k) + (if off == 0 then [] else [AddImm(0, 0, off % 0x1000)])
    case StrLit(a) => LoadImm(0, a)
    case _ => []
  }

  function BinaryCode(op: BinOp, cx: Code, cy: Code): Code {
    cy + [Push] + cx + [Pop(1)] + OpCode(op)
  }

  function AssignCode(ca: Code, cv: Code, ty: Ty): Code {
    ca + [Push] + cv + [Pop(1)] + StoreCode(ty)
  }

  function CallCode(ca: Code, n: nat, target: U64): Code {
    ca + PopArgs(n) + LoadImm(9, target) + [Blr(9)]
  }

  function AndCode(c1: Code, c2: Code): Code {
    c1 + [Cbz(|c2| + 4)] + c2 + [Cbz(3), Movz(0, 1), B(2), Movz(0, 0)]
  }

  function OrCode(c1: Code, c2: Code): Code {
    c1 + [CmpZero(0), Cbnz(|c2| + 4)] + c2 + [Cbnz(3), Movz(0, 0), B(2), Movz(0, 1)]
  }

  function ExprCode(e: Expr, k: Ctx): Code
    decreases e, 1
  {
    match e
    case Num(n) => LoadImm(0, n)
    case StrLit(a) => LoadImm(0, a)
    case VarRef(_, ty) => AddressCode(e, k) + LoadCode(ty)
    case Assign(dst, src) => AssignCode(AddressCode(dst, k), ExprCode(src, k), TypeOf(dst))
    case Deref(p, ty) => ExprCode(p, k) + LoadCode(ty)
    case Member(_, _, ty) => AddressCode(e, k) + LoadCode(ty)
    case AddrOf(obj) => AddressCode(obj, k)
    case Neg(x) => ExprCode(x, k) + [SubReg(0, R31, 0)]
    case Not(x) => ExprCode(x, k) + [CmpZero(0)] + Cset(EQ)
    case LogAnd(x, y) => AndCode(ExprCode(x, k), ExprCode(y, k))
    case LogOr(x, y) => OrCode(ExprCode(x, k), ExprCode(y, k))
    case Binary(op, x, y) => BinaryCode(op, ExprCode(x, k), ExprCode(y, k))
    case Call(name, args) => CallCode(ArgsCode(args, k), args.Length(), CallTarget(name, k))
  }

  function CallTarget(name: string, k: Ctx): U64 {
    if name in k.entry then k.entry[name] else if name in k.externs then k.externs[name] else 0
  }

  function ArgsCode(args: Args, k: Ctx): Code
    decreases args, 0
  {
    match args
    case NoArgs => []
    case Arg(e, rest) => ExprCode(e, k) + [Push] + ArgsCode(rest, k)
  }

  /** The last argument is on top, so registers are filled from the highest down. */
  function PopArgs(n: nat): (c: Code)
    ensures |c| == n
  {
    if n == 0 then [] else [Pop(n - 1)] + PopArgs(n - 1)
  }

  // ---------- statements ----------

  function TickSize(k: Ctx): nat {
    if k.tick == 0 then 0 else 6
  }

  /** The loop guard, placed at `pos`: leave for `out` when the guard answers 0. */
  function TickCode(k: Ctx, pos: int, out: int): (c: Code)
    ensures |c| == TickSize(k)
  {
    if k.tick == 0 then [] else LoadImm(9, k.tick) + [Blr(9), Cbz(out - (pos + 5))]
  }

  function ChainSize(cs: seq<Label>, n: nat): nat
    requires n <= |cs|
  {
    if n == 0 then 0 else (if cs[n - 1].Default? then 0 else 6) + ChainSize(cs, n - 1)
  }

  /** Compare-and-branch for the first `n` labels, last one first. */
  function ChainCode(cs: seq<Label>, at: seq<int>, pos: int, n: nat): (c: Code)
    requires n <= |cs| && |at| == |cs|
    ensures |c| == ChainSize(cs, n)
    decreases n
  {
    if n == 0 then []
    else if cs[n - 1].Default? then ChainCode(cs, at, pos, n - 1)
    else LoadImm(1, cs[n - 1].val) + [CmpReg(0, 1), Bcond(EQ, at[n - 1] - (pos + 5))]
         + ChainCode(cs, at, pos + 6, n - 1)
  }

  function OptExpr(e: Maybe<Expr>, k: Ctx): Code {
    if e.Nothing? then [] else ExprCode(e.get, k)
  }

  function SwitchHead(c: Expr, b: Stmt, k: Ctx): nat {
    |ExprCode(c, k)| + ChainSize(Cases(b), |Cases(b)|) + 1
  }

  function StmtSize(s: Stmt, k: Ctx): nat {
    match s
    case ExprStmt(e) => |ExprCode(e, k)|
    case Return(e) => |ExprCode(e, k)| + 1
    case If(c, a, b) => |ExprCode(c, k)| + StmtSize(a, k) + 2 + (if b.Just? then StmtSize(b.get, k) else 0)
    case While(c, b) => |ExprCode(c, k)| + StmtSize(b, k) + TickSize(k) + 2
    case For(i, c, n, b) =>
      (if i.Just? then StmtSize(i.get, k) else 0) + |OptExpr(c, k)| + (if c.Just? then 1 else 0)
      + StmtSize(b, k) + |OptExpr(n, k)| + TickSize(k) + 1
    case Switch(c, b) => SwitchHead(c, b, k) + StmtSize(b, k)
    case Case(_, i) => StmtSize(i, k)
    case Break => 1
    case Continue => 1
    case Block(ss) => ListSize(ss, k)
  }

  function ListSize(ss: Stmts, k: Ctx): nat {
    match ss
    case Done => 0
    case Then(s, rest) => StmtSize(s, k) + ListSize(rest, k)
  }

  /** Where the code of each case label of `s` begins, when `s` is placed at `pos`. */
  function CaseAt(s: Stmt, k: Ctx, pos: int): (r: seq<int>)
    ensures |r| == |Cases(s)|
  {
    match s
    case If(c, a, b) =>
      var pa := pos + |ExprCode(c, k)| + 1;
      CaseAt(a, k, pa) + (if b.Just? then CaseAt(b.get, k, pa + StmtSize(a, k) + 1) else [])
    case While(c, b) => CaseAt(b, k, pos + |ExprCode(c, k)| + 1)
    case For(i, c, _, b) => CaseAt(b, k, ForBodyAt(s, k, pos))
    case Case(_, i) => [pos] + CaseAt(i, k, pos)
    case Block(ss) => CasesAt(ss, k, pos)
    case _ => []
  }

  function CasesAt(ss: Stmts, k: Ctx, pos: int): (r: seq<int>)
    ensures |r| == |CasesOf(ss)|
  {
    match ss
    case Done => []
    case Then(s, rest) => CaseAt(s, k, pos) + CasesAt(rest, k, pos + StmtSize(s, k))
  }

  function ForTestAt(s: Stmt, k: Ctx, pos: int): int
    requires s.For?
  {
    pos + if s.init.Just? then StmtSize(s.init.get, k) else 0
  }

  function ForBodyAt(s: Stmt, k: Ctx, pos: int): int
    requires s.For?
  {
    ForTestAt(s, k, pos) + |OptExpr(s.test, k)| + if s.test.Just? then 1 else 0
  }

  function ForIncAt(s: Stmt, k: Ctx, pos: int): int
    requires s.For?
  {
    ForBodyAt(s, k, pos) + StmtSize(s.body, k)
  }

  /** Where the dispatch chain ends up when no label matches. */
  function Otherwise(cs: seq<Label>, at: seq<int>, end: int): int
    requires |at| == |cs|
  {
    var d := DefaultAt(cs, 0);
    if d < 0 then end else at[d]
  }

  function StmtCode(s: Stmt, k: Ctx, pos: int, x: Exits): (c: Code)
    ensures |c| == StmtSize(s, k)
  {
    var end := pos + StmtSize(s, k);
    match s
    case ExprStmt(e) => ExprCode(e, k)
    case Return(e) => ExprCode(e, k) + [B(x.ret - (end - 1))]
    case If(c, a, b) =>
      var cc := ExprCode(c, k);
      var pa := pos + |cc| + 1;
      var pb := pa + StmtSize(a, k) + 1;
      cc + [Cbz(StmtSize(a, k) + 2)] + StmtCode(a, k, pa, x)
      + [B(end - (pb - 1))] + (if b.Just? then StmtCode(b.get, k, pb, x) else [])
    case While(c, b) =>
      var cc := ExprCode(c, k);
      var pb := pos + |cc| + 1;
      var pt := pb + StmtSize(b, k);
      cc + [Cbz(end - (pb - 1))] + StmtCode(b, k, pb, Exits(end, pos, x.ret))
      + TickCode(k, pt, end) + [B(pos - (end - 1))]
    case For(i, c, n, b) =>
      var pc := ForTestAt(s, k, pos);
      var pb := ForBodyAt(s, k, pos);
      var pi := ForIncAt(s, k, pos);
      var pt := pi + |OptExpr(n, k)|;
      (if i.Just? then StmtCode(i.get, k, pos, x) else [])
      + OptExpr(c, k) + (if c.Just? then [Cbz(end - (pb - 1))] else [])
      + StmtCode(b, k, pb, Exits(end, pi, x.ret))
      + OptExpr(n, k) + TickCode(k, pt, end) + [B(pc - (end - 1))]
    case Switch(c, b) =>
      var cc := ExprCode(c, k);
      var pb := pos + SwitchHead(c, b, k);
      var at := CaseAt(b, k, pb);
      cc + ChainCode(Cases(b), at, pos + |cc|, |Cases(b)|)
      + [B(Otherwise(Cases(b), at, end) - (pb - 1))]
      + StmtCode(b, k, pb, Exits(end, x.cont, x.ret))
    case Case(_, i) => StmtCode(i, k, pos, x)
    case Break => [B(x.brk - pos)]
    case Continue => [B(x.cont - pos)]
    case Block(ss) => ListCode(ss, k, pos, x)
  }

  function ListCode(ss: Stmts, k: Ctx, pos: int, x: Exits): (c: Code)
    ensures |c| == ListSize(ss, k)
  {
    match ss
    case Done => []
    case Then(s, rest) => StmtCode(s, k, pos, x) + ListCode(rest, k, pos + StmtSize(s, k), x)
  }

  // ---------- functions ----------

  function ReserveCode(frame: nat): Code {
    if frame == 0 then []
    else if frame <= 0xFFF then [SubImm(R31, R31, frame)]
    else LoadImm(9, Wrap(frame)) + [SubReg(R31, R31, 9)]
  }

  function SpillOne(slot: Slot, i: nat): Code {
    SlotAddress(9, Wrap(slot.off)) + [if slot.ty.Size() == 1 then Strb(i, 9) else Str(i, 9)]
  }

  /** Parameters `i` and later go from their registers to their slots. */
  function SpillCode(slots: seq<Slot>, i: nat): Code
    requires i <= |slots|
    decreases |slots| - i
  {
    if i == |slots| then [] else SpillOne(slots[i], i) + SpillCode(slots, i + 1)
  }

  function HeadCode(f: Func): Code {
    [StpFrame, AddImm(FP, R31, 0)] + ReserveCode(FrameSize(f.locals)) + SpillCode(ParamSlots(f), 0)
  }

  function FuncSize(f: Func, k: Ctx): nat {
    |HeadCode(f)| + StmtSize(f.body, k) + 4
  }

  function FuncCode(f: Func, k: Ctx, pos: int): (c: Code)
    ensures |c| == FuncSize(f, k)
  {
    var pb := pos + |HeadCode(f)|;
    var ret := pb + StmtSize(f.body, k) + 1;
    HeadCode(f) + StmtCode(f.body, k, pb, Exits(0, 0, ret))
    + [Movz(0, 0), AddImm(R31, FP, 0), LdpFrame, Ret]
  }
}
