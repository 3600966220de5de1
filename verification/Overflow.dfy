/**
 What a dropped fixup does to the code. No branch of a program with a loop guard goes to itself,
 and no function lies at address 0, so a placeholder that is never patched is a wrong word.
 */
module Overflow {
  import opened Common
  import opened Memory
  import opened Isa
  import opened Machine
  import opened Csyntax
  import opened Csemantics
  import opened CodeSpec
  import opened Compile
  import opened Patches
  import opened Budget
  import opened Encodability

  /** A branch goes somewhere else, within the reach of the shortest form. */
  predicate Moving(i: Instr) {
    IsBranch(i) ==> i.delta != 0 && -0x40000 < i.delta < 0x40000
  }

  predicate Moves(c: Code) {
    forall i :: 0 <= i < |c| ==> Moving(c[i])
  }

  lemma MovesCat(a: Code, b: Code)
    requires Moves(a) && Moves(b)
    ensures Moves(a + b)
  {
  }

  lemma ImmMoves(r: nat, v: U64)
    ensures Moves(LoadImm(r, v))
  {
    hide Field;
  }

  lemma SlotMoves(r: nat, off: U64)
    ensures Moves(SlotAddress(r, off))
  {
    hide LoadImm;
    ImmMoves(9, off);
  }

  lemma OpMoves(op: BinOp)
    ensures Moves(OpCode(op))
  {
  }

  lemma {:induction false} PopsMove(n: nat)
    ensures Moves(PopArgs(n))
  {
    if n > 0 {
      PopsMove(n - 1);
    }
  }

  lemma LogicMoves(a: Code, b: Code)
    requires Moves(a) && Moves(b) && |b| < BUFFER
    ensures Moves(AndCode(a, b)) && Moves(OrCode(a, b))
  {
  }

  lemma CallMoves(a: Code, n: nat, t: U64)
    requires Moves(a)
    ensures Moves(CallCode(a, n, t))
  {
    hide LoadImm, PopArgs;
    ImmMoves(9, t);
    PopsMove(n);
  }

  lemma BinaryMoves(op: BinOp, a: Code, b: Code)
    requires Moves(a) && Moves(b)
    ensures Moves(BinaryCode(op, a, b))
  {
    hide OpCode;
    OpMoves(op);
  }

  lemma AssignMoves(a: Code, b: Code, ty: Ty)
    requires Moves(a) && Moves(b)
    ensures Moves(AssignCode(a, b, ty))
  {
  }

  lemma {:induction false} AddressMoves(e: Expr, k: Ctx)
    requires |AddressCode(e, k)| < BUFFER
    ensures Moves(AddressCode(e, k))
    decreases e, 0
  {
    hide LoadImm, SlotAddress, ExprCode;
    match e
    case VarRef(Global(a), _) => ImmMoves(0, a);
    case VarRef(Local(i), _) => if i < |k.offs| { SlotMoves(0, Wrap(k.offs[i])); }
    case Deref(q, _) => ExprMoves(q, k);
    case Member(o, _, _) => AddressMoves(o, k);
    case StrLit(a) => ImmMoves(0, a);
    case _ =>
  }

  lemma {:induction false} ExprMoves(e: Expr, k: Ctx)
    requires |ExprCode(e, k)| < BUFFER
    ensures Moves(ExprCode(e, k))
    decreases e, 1
  {
    hide LoadImm, SlotAddress, AddressCode, OpCode, BinaryCode, AssignCode, AndCode, OrCode, CallCode;
    match e
    case Num(n) => ImmMoves(0, n);
    case StrLit(a) => ImmMoves(0, a);
    case VarRef(_, _) => AddressMoves(e, k);
    case Assign(d, x) =>
      AssignSize(AddressCode(d, k), ExprCode(x, k), TypeOf(d));
      AddressMoves(d, k);
      ExprMoves(x, k);
      AssignMoves(AddressCode(d, k), ExprCode(x, k), TypeOf(d));
    case Deref(q, _) => ExprMoves(q, k);
    case Member(_, _, _) => AddressMoves(e, k);
    case AddrOf(o) => AddressMoves(o, k);
    case Neg(x) => ExprMoves(x, k);
    case Not(x) => ExprMoves(x, k);
    case LogAnd(x, y) =>
      LogicSize(ExprCode(x, k), ExprCode(y, k));
      ExprMoves(x, k);
      ExprMoves(y, k);
      LogicMoves(ExprCode(x, k), ExprCode(y, k));
    case LogOr(x, y) =>
      LogicSize(ExprCode(x, k), ExprCode(y, k));
      ExprMoves(x, k);
      ExprMoves(y, k);
      LogicMoves(ExprCode(x, k), ExprCode(y, k));
    case Binary(op, x, y) =>
      BinarySize(op, ExprCode(x, k), ExprCode(y, k));
      ExprMoves(x, k);
      ExprMoves(y, k);
      BinaryMoves(op, ExprCode(x, k), ExprCode(y, k));
    case Call(name, args) =>
      CallSize(ArgsCode(args, k), args.Length(), CallTarget(name, k));
      ArgsMove(args, k);
      CallMoves(ArgsCode(args, k), args.Length(), CallTarget(name, k));
  }

  lemma {:induction false} ArgsMove(args: Args, k: Ctx)
    requires |ArgsCode(args, k)| < BUFFER
    ensures Moves(ArgsCode(args, k))
    decreases args, 0
  {
    hide ExprCode;
    if args.Arg? {
      ExprMoves(args.head, k);
      ArgsMove(args.tail, k);
    }
  }

  // ---------- statements ----------

  /**
   The exits lie outside the statement: `break` and `return` after it, `continue` before or after.
   Exits a well-formed statement cannot use do not matter.
   */
  predicate Outside(pos: int, end: int, x: Exits, inBrk: bool, inCont: bool) {
    && 0 <= pos <= end <= BUFFER
    && (inBrk ==> end <= x.brk <= BUFFER)
    && (inCont ==> 0 <= x.cont < pos || end <= x.cont <= BUFFER)
    && end < x.ret <= BUFFER
  }

  lemma TickMoves(k: Ctx, pos: int, out: int)
    requires 0 <= pos && pos + 5 < out <= BUFFER
    ensures Moves(TickCode(k, pos, out))
  {
    hide LoadImm;
    ImmMoves(9, k.tick);
  }

  lemma {:induction false} ChainMoves(cs: seq<Label>, at: seq<int>, pos: int, n: nat)
    requires n <= |cs| == |at| && 0 <= pos && forall i :: 0 <= i < |at| ==> pos + ChainSize(cs, n) <= at[i] <= BUFFER
    ensures Moves(ChainCode(cs, at, pos, n))
    decreases n
  {
    hide LoadImm;
    if n > 0 {
      if cs[n - 1].Default? {
        ChainMoves(cs, at, pos, n - 1);
      } else {
        ImmMoves(1, cs[n - 1].val);
        ChainMoves(cs, at, pos + 6, n - 1);
      }
    }
  }

  lemma {:induction false} StmtMoves(s: Stmt, k: Ctx, p: Program, pos: int, x: Exits, inBrk: bool, inCont: bool)
    requires k.tick != 0 && StmtWf(s, p, inBrk, inCont) && Outside(pos, pos + StmtSize(s, k), x, inBrk, inCont)
    ensures Moves(StmtCode(s, k, pos, x))
    decreases s, 1
  {
    hide ExprCode, ExprWf, TickCode, ChainCode, CaseAt;
    match s
    case ExprStmt(e) => ExprMoves(e, k);
    case Return(e) => ExprMoves(e, k);
    case If(_, _, _) => IfMoves(s, k, p, pos, x, inBrk, inCont);
    case While(_, _) => WhileMoves(s, k, p, pos, x, inBrk, inCont);
    case For(_, _, _, _) => ForMoves(s, k, p, pos, x, inBrk, inCont);
    case Switch(_, _) => SwitchMoves(s, k, p, pos, x, inBrk, inCont);
    case Case(_, i) => StmtMoves(i, k, p, pos, x, inBrk, inCont);
    case Break =>
    case Continue =>
    case Block(ss) => ListMoves(ss, k, p, pos, x, inBrk, inCont);
  }

  lemma {:induction false} IfMoves(s: Stmt, k: Ctx, p: Program, pos: int, x: Exits, inBrk: bool, inCont: bool)
    requires s.If? && k.tick != 0 && StmtWf(s, p, inBrk, inCont) && Outside(pos, pos + StmtSize(s, k), x, inBrk, inCont)
    ensures Moves(StmtCode(s, k, pos, x))
    decreases s, 0
  {
    hide ExprCode, ExprWf;
    ExprMoves(s.cond, k);
    var pa := pos + |ExprCode(s.cond, k)| + 1;
    StmtMoves(s.thn, k, p, pa, x, inBrk, inCont);
    if s.els.Just? { StmtMoves(s.els.get, k, p, pa + StmtSize(s.thn, k) + 1, x, inBrk, inCont); }
  }

  lemma {:induction false} WhileMoves(s: Stmt, k: Ctx, p: Program, pos: int, x: Exits, inBrk: bool, inCont: bool)
    requires s.While? && k.tick != 0 && StmtWf(s, p, inBrk, inCont) && Outside(pos, pos + StmtSize(s, k), x, inBrk, inCont)
    ensures Moves(StmtCode(s, k, pos, x))
    decreases s, 0
  {
    hide ExprCode, ExprWf, TickCode;
    ExprMoves(s.cond, k);
    var end, pb := pos + StmtSize(s, k), pos + |ExprCode(s.cond, k)| + 1;
    StmtMoves(s.body, k, p, pb, Exits(end, pos, x.ret), true, true);
    TickMoves(k, pb + StmtSize(s.body, k), end);
  }

  lemma {:induction false} ForMoves(s: Stmt, k: Ctx, p: Program, pos: int, x: Exits, inBrk: bool, inCont: bool)
    requires s.For? && k.tick != 0 && StmtWf(s, p, inBrk, inCont) && Outside(pos, pos + StmtSize(s, k), x, inBrk, inCont)
    ensures Moves(StmtCode(s, k, pos, x))
    decreases s, 0
  {
    hide ExprCode, ExprWf, TickCode, StmtCode, Moves;
    var end, pb, pi := pos + StmtSize(s, k), ForBodyAt(s, k, pos), ForIncAt(s, k, pos);
    var x' := Exits(end, pi, x.ret);
    if s.init.Just? { StmtMoves(s.init.get, k, p, pos, x, inBrk, inCont); }
    if s.test.Just? { ExprMoves(s.test.get, k); }
    if s.inc.Just? { ExprMoves(s.inc.get, k); }
    StmtMoves(s.body, k, p, pb, x', true, true);
    TickMoves(k, pi + |OptExpr(s.inc, k)|, end);
    OneMoves(Cbz(end - (pb - 1)));
    OneMoves(B(ForTestAt(s, k, pos) - (end - 1)));
    var i := if s.init.Just? then StmtCode(s.init.get, k, pos, x) else [];
    var t := OptExpr(s.test, k) + (if s.test.Just? then [Cbz(end - (pb - 1))] else []);
    MovesCat(OptExpr(s.test, k), if s.test.Just? then [Cbz(end - (pb - 1))] else []);
    ForCodeIs(s, k, pos, x, t);
    SixMove(i, t, StmtCode(s.body, k, pb, x'), OptExpr(s.inc, k), TickCode(k, pi + |OptExpr(s.inc, k)|, end), [B(ForTestAt(s, k, pos) - (end - 1))]);
  }

  lemma OneMoves(i: Instr)
    requires Moving(i)
    ensures Moves([i]) && Moves([])
  {
  }

  lemma SixMove(a: Code, b: Code, c: Code, d: Code, e: Code, f: Code)
    requires Moves(a) && Moves(b) && Moves(c) && Moves(d) && Moves(e) && Moves(f)
    ensures Moves(a + b + c + d + e + f)
  {
    hide Moves;
    MovesCat(a, b);
    MovesCat(a + b, c);
    MovesCat(a + b + c, d);
    MovesCat(a + b + c + d, e);
    MovesCat(a + b + c + d + e, f);
  }

  lemma {:induction false} SwitchMoves(s: Stmt, k: Ctx, p: Program, pos: int, x: Exits, inBrk: bool, inCont: bool)
    requires s.Switch? && k.tick != 0 && StmtWf(s, p, inBrk, inCont) && Outside(pos, pos + StmtSize(s, k), x, inBrk, inCont)
    ensures Moves(StmtCode(s, k, pos, x))
    decreases s, 0
  {
    hide ExprCode, ExprWf, ChainCode, CaseAt;
    var end, pb := pos + StmtSize(s, k), pos + SwitchHead(s.cond, s.body, k);
    var cs, at := Cases(s.body), CaseAt(s.body, k, pb);
    ExprMoves(s.cond, k);
    CasesInside(s.body, k, pb);
    ChainMoves(cs, at, pos + |ExprCode(s.cond, k)|, |cs|);
    StmtMoves(s.body, k, p, pb, Exits(end, x.cont, x.ret), true, inCont);
  }

  lemma {:induction false} ListMoves(ss: Stmts, k: Ctx, p: Program, pos: int, x: Exits, inBrk: bool, inCont: bool)
    requires k.tick != 0 && ListWf(ss, p, inBrk, inCont) && Outside(pos, pos + ListSize(ss, k), x, inBrk, inCont)
    ensures Moves(ListCode(ss, k, pos, x))
    decreases ss, 0
  {
    hide StmtCode, StmtWf;
    if ss.Then? {
      StmtMoves(ss.first, k, p, pos, x, inBrk, inCont);
      ListMoves(ss.rest, k, p, pos + StmtSize(ss.first, k), x, inBrk, inCont);
    }
  }

  // ---------- functions and programs ----------

  lemma {:induction false} SpillMoves(slots: seq<Slot>, i: nat)
    requires i <= |slots|
    ensures Moves(SpillCode(slots, i))
    decreases |slots| - i
  {
    hide SlotAddress;
    if i < |slots| {
      SlotMoves(9, Wrap(slots[i].off));
      SpillMoves(slots, i + 1);
    }
  }

  lemma HeadMoves(f: Func)
    ensures Moves(HeadCode(f))
  {
    hide LoadImm, SpillCode, FrameSize;
    ImmMoves(9, Wrap(FrameSize(f.locals)));
    SpillMoves(ParamSlots(f), 0);
  }

  lemma FuncMoves(f: Func, k: Ctx, p: Program, pos: int)
    requires k.tick != 0 && StmtWf(f.body, p, false, false) && 0 <= pos && pos + FuncSize(f, k) <= BUFFER
    ensures Moves(FuncCode(f, k, pos))
  {
    hide HeadCode, StmtCode, StmtSize, StmtWf;
    HeadMoves(f);
    var pb := pos + |HeadCode(f)|;
    StmtMoves(f.body, k, p, pb, Exits(0, 0, pb + StmtSize(f.body, k) + 1), false, false);
  }

  lemma {:induction false} CodeMoves(pl: Platform, p: Program, i: nat)
    requires i <= |p.funcs| && EntryIndex(p, |p.funcs|) <= BUFFER && p.tick != 0
    requires forall j :: 0 <= j < |p.funcs| ==> StmtWf(p.funcs[j].body, p, false, false)
    ensures Moves(CodeFrom(pl, p, i))
    decreases |p.funcs| - i
  {
    hide CodeFrom, EntryIndex, FuncCode, StmtWf;
    if i == |p.funcs| {
      assert CodeFrom(pl, p, i) == [] by { NoCode(pl, p); }
      return;
    }
    CodeStep(pl, p, i);
    EntriesGrow(p, i + 1, |p.funcs|);
    FuncMoves(p.funcs[i], CtxFor(pl, p, p.funcs[i]), p, EntryIndex(p, i));
    CodeMoves(pl, p, i + 1);
    MovesCat(FuncWords(pl, p, i), CodeFrom(pl, p, i + 1));
  }

  // ---------- placeholders are wrong ----------

  /** A branch that goes elsewhere is not its placeholder. */
  lemma BranchDiffers(i: Instr)
    requires IsBranch(i) && Moving(i)
    ensures WordOf(Still(i)) != WordOf(i)
  {
    NotMultiple(i.delta);
  }

  lemma NotMultiple(d: int)
    requires d != 0 && -0x40000 < d < 0x40000
    ensures d % 0x80000 != 0 && d % 0x4000000 != 0
  {
  }

  /** Loading a non-zero address is not loading 0. */
  lemma LoadDiffers(v: U64)
    requires v != 0
    ensures Words(LoadImm(9, v)) != Words(LoadImm(9, 0))
  {
    hide WordOf, Field;
    var k := NonZeroField(v);
    var a, b := LoadImm(9, v)[k], LoadImm(9, 0)[k];
    assert Words(LoadImm(9, v))[k] == WordOf(a) && Words(LoadImm(9, 0))[k] == WordOf(b);
    FieldWord(k, Field(v, k));
    ZeroFields();
  }

  lemma NonZeroField(v: U64) returns (k: nat)
    requires v != 0
    ensures k < 4 && 0 < Field(v, k) < 0x10000
  {
    k := if Field(v, 0) != 0 then 0 else if Field(v, 1) != 0 then 1 else if Field(v, 2) != 0 then 2 else 3;
  }

  lemma ZeroFields()
    ensures Field(0, 0) == 0 && Field(0, 1) == 0 && Field(0, 2) == 0 && Field(0, 3) == 0
  {
  }

  lemma FieldWord(k: nat, f: nat)
    requires k < 4 && 0 < f < 0x10000
    ensures WordOf(Movz(9, f)) != WordOf(Movz(9, 0)) && WordOf(Movk(9, f, k)) != WordOf(Movk(9, 0, k))
  {
  }

  /** A placeholder in place of a moving branch, or of a load of a non-zero address, is wrong. */
  lemma PlaceholderWrong(w: seq<Word32>, c: Code, entry: seq<U64>)
    requires Placeholder(w, c, entry) && Moves(c) && forall i :: 0 <= i < |entry| ==> entry[i] != 0
    ensures w != Words(c)
  {
    hide WordOf, LoadImm, Still;
    if |c| == 1 && IsBranch(c[0]) && w == [WordOf(Still(c[0]))] {
      BranchDiffers(c[0]);
      assert Words(c)[0] == WordOf(c[0]);
    } else {
      var fn :| 0 <= fn < |entry| && c == LoadImm(9, entry[fn]) && w == Words(LoadImm(9, 0));
      LoadDiffers(entry[fn]);
    }
  }

  /** Words with a lost fixup are not those of the code they were to be. */
  lemma LossShows(words: seq<Word32>, code: Code, x: Span, entry: seq<U64>)
    requires x.lo < x.hi <= |words| == |code| && Placeholder(words[x.lo..x.hi], code[x.lo..x.hi], entry)
    requires Moves(code) && forall i :: 0 <= i < |entry| ==> entry[i] != 0
    ensures words != Words(code)
  {
    hide WordOf, Placeholder;
    PlaceholderWrong(words[x.lo..x.hi], code[x.lo..x.hi], entry);
    assert Words(code)[x.lo..x.hi] == Words(code[x.lo..x.hi]);
  }

  /** Where the code lies above address 0, so does every function. */
  lemma EntriesNonZero(pl: Platform, p: Program)
    requires 0 < pl.base && pl.base + 4 * EntryIndex(p, |p.funcs|) < TWO64
    ensures forall i :: 0 <= i < |Addresses(pl, p)| ==> Addresses(pl, p)[i] != 0
  {
    hide EntryIndex;
    forall i | 0 <= i < |p.funcs| ensures AddressOf(pl, p, i) != 0 {
      EntriesGrow(p, i, |p.funcs|);
    }
  }
}
