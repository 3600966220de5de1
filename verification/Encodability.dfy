/**
 Every instruction the generator chooses has an encoding, branches included, as long as the
 code fits the 256 KiB buffer.
 */
module Encodability {
  import opened Memory
  import opened Isa
  import opened Machine
  import opened Csyntax
  import opened Csemantics
  import opened CodeSpec
  import opened SimBase
  import opened Compile
  import opened Patches
  import opened Budget

  predicate Fine(c: Code) {
    forall i :: 0 <= i < |c| ==> Encodable(c[i])
  }

  lemma FineCat(a: Code, b: Code)
    requires Fine(a) && Fine(b)
    ensures Fine(a + b)
  {
  }

  lemma FineImm(r: nat, v: U64)
    requires r < 32
    ensures Fine(LoadImm(r, v))
  {
  }

  lemma FineSlot(r: nat, off: U64)
    requires r < 32
    ensures Fine(SlotAddress(r, off))
  {
    FineImm(9, off);
  }

  lemma FineOp(op: BinOp)
    ensures Fine(OpCode(op))
  {
  }

  lemma {:induction false} FinePops(n: nat)
    requires n <= 8
    ensures Fine(PopArgs(n))
  {
    if n > 0 {
      FinePops(n - 1);
    }
  }

  lemma FineBinary(op: BinOp, a: Code, b: Code)
    requires Fine(a) && Fine(b)
    ensures Fine(BinaryCode(op, a, b))
  {
    hide OpCode;
    FineOp(op);
  }

  lemma FineAssign(a: Code, b: Code, ty: Ty)
    requires Fine(a) && Fine(b)
    ensures Fine(AssignCode(a, b, ty))
  {
  }

  lemma FineLogic(a: Code, b: Code)
    requires Fine(a) && Fine(b) && |b| < 0x30000
    ensures Fine(AndCode(a, b)) && Fine(OrCode(a, b))
  {
  }

  lemma FineCall(a: Code, n: nat, t: U64)
    requires Fine(a) && n <= 8
    ensures Fine(CallCode(a, n, t))
  {
    hide LoadImm, PopArgs;
    FineImm(9, t);
    FinePops(n);
  }

  lemma {:induction false} FineAddress(e: Expr, k: Ctx)
    requires ExprOk(e) && |AddressCode(e, k)| < 0x20000
    ensures Fine(AddressCode(e, k))
    decreases e, 0
  {
    hide LoadImm, SlotAddress, ExprCode;
    match e
    case VarRef(Global(a), _) => FineImm(0, a);
    case VarRef(Local(i), _) => if i < |k.offs| { FineSlot(0, Wrap(k.offs[i])); }
    case Deref(q, _) => FineExpr(q, k);
    case Member(o, _, _) => FineAddress(o, k);
    case StrLit(a) => FineImm(0, a);
    case _ =>
  }

  lemma {:induction false} FineExpr(e: Expr, k: Ctx)
    requires ExprOk(e) && |ExprCode(e, k)| < 0x20000
    ensures Fine(ExprCode(e, k))
    decreases e, 1
  {
    hide LoadImm, SlotAddress, AddressCode, OpCode, BinaryCode, AssignCode, AndCode, OrCode, CallCode;
    match e
    case Num(n) => FineImm(0, n);
    case StrLit(a) => FineImm(0, a);
    case VarRef(_, _) => FineAddress(e, k);
    case Assign(d, x) =>
      AssignSize(AddressCode(d, k), ExprCode(x, k), TypeOf(d));
      FineAddress(d, k);
      FineExpr(x, k);
      FineAssign(AddressCode(d, k), ExprCode(x, k), TypeOf(d));
    case Deref(q, _) => FineExpr(q, k);
    case Member(_, _, _) => FineAddress(e, k);
    case AddrOf(o) => FineAddress(o, k);
    case Neg(x) => FineExpr(x, k);
    case Not(x) => FineExpr(x, k);
    case LogAnd(x, y) =>
      LogicSize(ExprCode(x, k), ExprCode(y, k));
      FineExpr(x, k);
      FineExpr(y, k);
      FineLogic(ExprCode(x, k), ExprCode(y, k));
    case LogOr(x, y) =>
      LogicSize(ExprCode(x, k), ExprCode(y, k));
      FineExpr(x, k);
      FineExpr(y, k);
      FineLogic(ExprCode(x, k), ExprCode(y, k));
    case Binary(op, x, y) =>
      BinarySize(op, ExprCode(x, k), ExprCode(y, k));
      FineExpr(x, k);
      FineExpr(y, k);
      FineBinary(op, ExprCode(x, k), ExprCode(y, k));
    case Call(name, args) =>
      CallSize(ArgsCode(args, k), args.Length(), CallTarget(name, k));
      FineArgs(args, k);
      FineCall(ArgsCode(args, k), args.Length(), CallTarget(name, k));
  }

  lemma AssignSize(a: Code, b: Code, ty: Ty)
    ensures |a| + |b| <= |AssignCode(a, b, ty)|
  {
  }

  lemma LogicSize(a: Code, b: Code)
    ensures |a| + |b| <= |AndCode(a, b)| && |a| + |b| <= |OrCode(a, b)|
  {
  }

  lemma BinarySize(op: BinOp, a: Code, b: Code)
    ensures |a| + |b| <= |BinaryCode(op, a, b)|
  {
  }

  lemma CallSize(a: Code, n: nat, t: U64)
    ensures |a| <= |CallCode(a, n, t)|
  {
  }

  lemma {:induction false} FineArgs(args: Args, k: Ctx)
    requires ArgsOk(args) && |ArgsCode(args, k)| < 0x20000
    ensures Fine(ArgsCode(args, k))
    decreases args, 0
  {
    hide ExprCode;
    if args.Arg? {
      FineExpr(args.head, k);
      FineArgs(args.tail, k);
    }
  }

  // ---------- statements ----------

  /** All positions a statement may branch to lie in the buffer. */
  predicate Near(pos: int, size: nat, x: Exits) {
    0 <= pos && pos + size <= BUFFER && 0 <= x.brk <= BUFFER && 0 <= x.cont <= BUFFER && 0 <= x.ret <= BUFFER
  }

  lemma FineTick(k: Ctx, pos: int, out: int)
    requires 0 <= pos <= BUFFER && 0 <= out <= BUFFER
    ensures Fine(TickCode(k, pos, out))
  {
    hide LoadImm;
    FineImm(9, k.tick);
  }

  lemma {:induction false} FineChain(cs: seq<Label>, at: seq<int>, pos: int, n: nat)
    requires n <= |cs| == |at| && 0 <= pos && pos + ChainSize(cs, n) <= BUFFER
    requires forall i :: 0 <= i < |at| ==> 0 <= at[i] <= BUFFER
    ensures Fine(ChainCode(cs, at, pos, n))
    decreases n
  {
    hide LoadImm, Encodable;
    if n > 0 {
      if cs[n - 1].Default? {
        FineChain(cs, at, pos, n - 1);
      } else {
        FineTest(cs[n - 1].val, at[n - 1] - (pos + 5));
        FineChain(cs, at, pos + 6, n - 1);
      }
    }
  }

  lemma FineTest(v: U64, d: int)
    requires Fits19(d)
    ensures Fine(LoadImm(1, v) + [CmpReg(0, 1), Bcond(EQ, d)])
  {
    hide LoadImm;
    FineImm(1, v);
  }

  /** Case labels lie inside their statement. */
  lemma {:induction false} CasesInside(s: Stmt, k: Ctx, pos: int)
    ensures forall i :: 0 <= i < |CaseAt(s, k, pos)| ==> pos <= CaseAt(s, k, pos)[i] <= pos + StmtSize(s, k)
    decreases s, 0
  {
    hide ExprCode;
    match s
    case If(c, a, b) =>
      var pa := pos + |ExprCode(c, k)| + 1;
      CasesInside(a, k, pa);
      if b.Just? { CasesInside(b.get, k, pa + StmtSize(a, k) + 1); }
    case While(c, b) => CasesInside(b, k, pos + |ExprCode(c, k)| + 1);
    case For(_, _, _, b) => CasesInside(b, k, ForBodyAt(s, k, pos));
    case Case(_, i) => CasesInside(i, k, pos);
    case Block(ss) => ListCasesInside(ss, k, pos);
    case _ =>
  }

  lemma {:induction false} ListCasesInside(ss: Stmts, k: Ctx, pos: int)
    ensures forall i :: 0 <= i < |CasesAt(ss, k, pos)| ==> pos <= CasesAt(ss, k, pos)[i] <= pos + ListSize(ss, k)
    decreases ss, 0
  {
    if ss.Then? {
      CasesInside(ss.first, k, pos);
      ListCasesInside(ss.rest, k, pos + StmtSize(ss.first, k));
    }
  }

  lemma {:induction false} FineStmt(s: Stmt, k: Ctx, pos: int, x: Exits)
    requires StmtOk(s) && Near(pos, StmtSize(s, k), x)
    ensures Fine(StmtCode(s, k, pos, x))
    decreases s, 1
  {
    hide ExprCode, TickCode, ChainCode, CaseAt, ExprOk;
    match s
    case ExprStmt(e) => FineExpr(e, k);
    case Return(e) => FineExpr(e, k);
    case If(_, _, _) => FineIf(s, k, pos, x);
    case While(_, _) => FineWhile(s, k, pos, x);
    case For(i, c, n, b) => FineFor(s, k, pos, x);
    case Switch(c, b) => FineSwitch(s, k, pos, x);
    case Case(_, i) => FineStmt(i, k, pos, x);
    case Break =>
    case Continue =>
    case Block(ss) => FineList(ss, k, pos, x);
  }

  lemma {:induction false} FineWhile(s: Stmt, k: Ctx, pos: int, x: Exits)
    requires s.While? && StmtOk(s) && Near(pos, StmtSize(s, k), x)
    ensures Fine(StmtCode(s, k, pos, x))
    decreases s, 0
  {
    hide ExprCode, TickCode, ExprOk;
    var end := pos + StmtSize(s, k);
    var pb := pos + |ExprCode(s.cond, k)| + 1;
    FineExpr(s.cond, k);
    FineStmt(s.body, k, pb, Exits(end, pos, x.ret));
    FineTick(k, pb + StmtSize(s.body, k), end);
  }

  lemma {:induction false} FineIf(s: Stmt, k: Ctx, pos: int, x: Exits)
    requires s.If? && StmtOk(s) && Near(pos, StmtSize(s, k), x)
    ensures Fine(StmtCode(s, k, pos, x))
    decreases s, 0
  {
    hide ExprCode, ExprOk;
    FineExpr(s.cond, k);
    var pa := pos + |ExprCode(s.cond, k)| + 1;
    FineStmt(s.thn, k, pa, x);
    if s.els.Just? { FineStmt(s.els.get, k, pa + StmtSize(s.thn, k) + 1, x); }
  }

  lemma {:induction false} FineFor(s: Stmt, k: Ctx, pos: int, x: Exits)
    requires s.For? && StmtOk(s) && Near(pos, StmtSize(s, k), x)
    ensures Fine(StmtCode(s, k, pos, x))
    decreases s, 0
  {
    hide ExprCode, TickCode, ExprOk, StmtCode, Fine;
    var end, pb, pi := pos + StmtSize(s, k), ForBodyAt(s, k, pos), ForIncAt(s, k, pos);
    var x' := Exits(end, pi, x.ret);
    if s.init.Just? { FineStmt(s.init.get, k, pos, x); }
    if s.test.Just? { FineExpr(s.test.get, k); }
    if s.inc.Just? { FineExpr(s.inc.get, k); }
    FineStmt(s.body, k, pb, x');
    FineTick(k, pi + |OptExpr(s.inc, k)|, end);
    FineNone();
    FineOne(Cbz(end - (pb - 1)));
    FineOne(B(ForTestAt(s, k, pos) - (end - 1)));
    var i := if s.init.Just? then StmtCode(s.init.get, k, pos, x) else [];
    var t := OptExpr(s.test, k) + (if s.test.Just? then [Cbz(end - (pb - 1))] else []);
    FineCat(OptExpr(s.test, k), if s.test.Just? then [Cbz(end - (pb - 1))] else []);
    ForCodeIs(s, k, pos, x, t);
    FineSix(i, t, StmtCode(s.body, k, pb, x'), OptExpr(s.inc, k), TickCode(k, pi + |OptExpr(s.inc, k)|, end), [B(ForTestAt(s, k, pos) - (end - 1))]);
  }

  lemma FineNone()
    ensures Fine([])
  {
  }

  lemma FineOne(i: Instr)
    requires Encodable(i)
    ensures Fine([i])
  {
  }

  lemma FineSix(a: Code, b: Code, c: Code, d: Code, e: Code, f: Code)
    requires Fine(a) && Fine(b) && Fine(c) && Fine(d) && Fine(e) && Fine(f)
    ensures Fine(a + b + c + d + e + f)
  {
    hide Fine;
    FineCat(a, b);
    FineCat(a + b, c);
    FineCat(a + b + c, d);
    FineCat(a + b + c + d, e);
    FineCat(a + b + c + d + e, f);
  }

  lemma {:induction false} FineSwitch(s: Stmt, k: Ctx, pos: int, x: Exits)
    requires s.Switch? && StmtOk(s) && Near(pos, StmtSize(s, k), x)
    ensures Fine(StmtCode(s, k, pos, x))
    decreases s, 0
  {
    hide ExprCode, ExprOk, ChainCode, CaseAt;
    var end, pb := pos + StmtSize(s, k), pos + SwitchHead(s.cond, s.body, k);
    var cs, at := Cases(s.body), CaseAt(s.body, k, pb);
    FineExpr(s.cond, k);
    CasesInside(s.body, k, pb);
    FineChain(cs, at, pos + |ExprCode(s.cond, k)|, |cs|);
    FineStmt(s.body, k, pb, Exits(end, x.cont, x.ret));
  }

  lemma {:induction false} FineList(ss: Stmts, k: Ctx, pos: int, x: Exits)
    requires StmtsOk(ss) && Near(pos, ListSize(ss, k), x)
    ensures Fine(ListCode(ss, k, pos, x))
    decreases ss, 0
  {
    hide StmtCode;
    if ss.Then? {
      FineStmt(ss.first, k, pos, x);
      FineList(ss.rest, k, pos + StmtSize(ss.first, k), x);
    }
  }

  // ---------- functions and programs ----------

  lemma {:induction false} FineSpill(slots: seq<Slot>, i: nat)
    requires i <= |slots| <= 8
    ensures Fine(SpillCode(slots, i))
    decreases |slots| - i
  {
    hide SlotAddress;
    if i < |slots| {
      FineSlot(9, Wrap(slots[i].off));
      FineSpill(slots, i + 1);
    }
  }

  lemma FineHead(f: Func)
    requires |f.params| <= 8
    ensures Fine(HeadCode(f))
  {
    hide LoadImm, SpillCode, FrameSize;
    FineImm(9, Wrap(FrameSize(f.locals)));
    FineSpill(ParamSlots(f), 0);
  }

  lemma FineFunc(f: Func, k: Ctx, pos: int)
    requires |f.params| <= 8 && StmtOk(f.body) && 0 <= pos && pos + FuncSize(f, k) <= BUFFER
    ensures Fine(FuncCode(f, k, pos))
  {
    hide HeadCode, StmtCode, StmtSize;
    FineHead(f);
    var pb := pos + |HeadCode(f)|;
    FineStmt(f.body, k, pb, Exits(0, 0, pb + StmtSize(f.body, k) + 1));
  }

  lemma {:induction false} FineFrom(pl: Platform, p: Program, i: nat)
    requires i <= |p.funcs| && EntryIndex(p, |p.funcs|) <= BUFFER
    requires forall f :: f in p.funcs ==> |f.params| <= 8 && StmtOk(f.body)
    ensures Fine(CodeFrom(pl, p, i))
    decreases |p.funcs| - i
  {
    hide CodeFrom, EntryIndex, FuncCode, CtxFor, StmtOk;
    if i == |p.funcs| {
      assert CodeFrom(pl, p, i) == [] by { NoCode(pl, p); }
      return;
    }
    CodeStep(pl, p, i);
    EntriesGrow(p, i + 1, |p.funcs|);
    assert p.funcs[i] in p.funcs;
    FineFunc(p.funcs[i], CtxFor(pl, p, p.funcs[i]), EntryIndex(p, i));
    FineFrom(pl, p, i + 1);
    FineCat(FuncWords(pl, p, i), CodeFrom(pl, p, i + 1));
  }

  lemma NoCode(pl: Platform, p: Program)
    ensures CodeFrom(pl, p, |p.funcs|) == []
  {
  }

  /** Inside the buffer, every word the generator leaves decodes to the instruction it stands for. */
  lemma WordsDecode(pl: Platform, p: Program)
    requires EntryIndex(p, |p.funcs|) <= BUFFER
    requires forall f :: f in p.funcs ==> |f.params| <= 8 && StmtOk(f.body)
    ensures Encodes(Words(Build(pl, p).code), Build(pl, p).code)
  {
    hide CodeFrom, EntryIndex, StmtOk, Words;
    FineFrom(pl, p, 0);
    WordsEncode(Build(pl, p).code);
  }
}
