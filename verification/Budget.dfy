/**
 What generating a construct asks of the generator's tables, counted on the tree alone,
 and when the generator refuses it.
 */
module Budget {
  import opened Memory
  import opened Isa
  import opened Csyntax
  import opened Csemantics
  import opened CodeSpec
  import opened Patches

  const MAXBFX: nat := 2048
  const MAXCFX: nat := 2048
  const LOOPDEPTH: nat := 64

  /** Labels handed out, branch fixups and call fixups recorded. */
  datatype Counts = Counts(labels: nat, branches: nat, calls: nat) {
    function Plus(c: Counts): Counts {
      Counts(labels + c.labels, branches + c.branches, calls + c.calls)
    }
  }

  function Zero(): Counts { Counts(0, 0, 0) }

  // ---------- trees the generator accepts ----------

  predicate Known(name: string, p: Program) {
    Find(p.funcs, name, 0) >= 0 || (name in p.externs && p.externs[name] != 0)
  }

  predicate AddressWf(e: Expr, p: Program)
    decreases e, 0
  {
    match e
    case VarRef(_, _) => true
    case StrLit(_) => true
    case Deref(q, _) => ExprWf(q, p)
    case Member(o, _, _) => AddressWf(o, p)
    case _ => false
  }

  predicate ExprWf(e: Expr, p: Program)
    decreases e, 1
  {
    match e
    case Num(_) => true
    case StrLit(_) => true
    case VarRef(_, _) => true
    case Assign(d, s) => AddressWf(d, p) && ExprWf(s, p)
    case Deref(q, _) => ExprWf(q, p)
    case Member(_, _, _) => AddressWf(e, p)
    case AddrOf(o) => AddressWf(o, p)
    case Neg(x) => ExprWf(x, p)
    case Not(x) => ExprWf(x, p)
    case LogAnd(x, y) => ExprWf(x, p) && ExprWf(y, p)
    case LogOr(x, y) => ExprWf(x, p) && ExprWf(y, p)
    case Binary(_, x, y) => ExprWf(x, p) && ExprWf(y, p)
    case Call(name, args) => args.Length() <= 8 && ArgsWf(args, p) && Known(name, p)
  }

  predicate ArgsWf(args: Args, p: Program)
    decreases args, 0
  {
    match args
    case NoArgs => true
    case Arg(e, rest) => ExprWf(e, p) && ArgsWf(rest, p)
  }

  predicate StmtWf(s: Stmt, p: Program, inBrk: bool, inCont: bool) {
    match s
    case ExprStmt(e) => ExprWf(e, p)
    case Return(e) => ExprWf(e, p)
    case If(c, a, b) => ExprWf(c, p) && StmtWf(a, p, inBrk, inCont) && (b.Just? ==> StmtWf(b.get, p, inBrk, inCont))
    case While(c, b) => ExprWf(c, p) && StmtWf(b, p, true, true)
    case For(i, c, n, b) =>
      && (i.Just? ==> StmtWf(i.get, p, inBrk, inCont)) && (c.Just? ==> ExprWf(c.get, p))
      && (n.Just? ==> ExprWf(n.get, p)) && StmtWf(b, p, true, true)
    case Switch(c, b) => ExprWf(c, p) && StmtWf(b, p, true, inCont)
    case Case(_, i) => StmtWf(i, p, inBrk, inCont)
    case Break => inBrk
    case Continue => inCont
    case Block(ss) => ListWf(ss, p, inBrk, inCont)
  }

  predicate ListWf(ss: Stmts, p: Program, inBrk: bool, inCont: bool) {
    match ss
    case Done => true
    case Then(s, rest) => StmtWf(s, p, inBrk, inCont) && ListWf(rest, p, inBrk, inCont)
  }

  /** What the parser imposes: a `for` initialiser holds no case label. */
  predicate Shaped(s: Stmt) {
    match s
    case If(_, a, b) => Shaped(a) && (b.Just? ==> Shaped(b.get))
    case While(_, b) => Shaped(b)
    case For(i, _, _, b) => Shaped(b) && (i.Just? ==> Shaped(i.get) && Cases(i.get) == [])
    case Switch(_, b) => Shaped(b)
    case Case(_, i) => Shaped(i)
    case Block(ss) => AllShaped(ss)
    case _ => true
  }

  predicate AllShaped(ss: Stmts) {
    match ss
    case Done => true
    case Then(s, rest) => Shaped(s) && AllShaped(rest)
  }

  /** With `depth` break targets open already, `s` opens more than their stack holds. */
  predicate Deep(s: Stmt, depth: nat) {
    match s
    case If(_, a, b) => Deep(a, depth) || (b.Just? && Deep(b.get, depth))
    case While(_, b) => depth >= LOOPDEPTH || Deep(b, depth + 1)
    case For(i, _, _, b) => (i.Just? && Deep(i.get, depth)) || depth >= LOOPDEPTH || Deep(b, depth + 1)
    case Switch(_, b) => depth >= LOOPDEPTH || Deep(b, depth + 1)
    case Case(_, i) => Deep(i, depth)
    case Block(ss) => DeepList(ss, depth)
    case _ => false
  }

  predicate DeepList(ss: Stmts, depth: nat) {
    match ss
    case Done => false
    case Then(s, rest) => Deep(s, depth) || DeepList(rest, depth)
  }

  lemma ListShape(ss: Stmts)
    ensures ss.Then? && AllShaped(ss) ==> Shaped(ss.first) && AllShaped(ss.rest)
    ensures ss.Then? ==> |CasesOf(ss)| == |Cases(ss.first)| + |CasesOf(ss.rest)|
    ensures ss.Done? ==> |CasesOf(ss)| == 0
  {
  }

  // ---------- counts ----------

  function AddressCounts(e: Expr, p: Program): Counts
    decreases e, 0
  {
    match e
    case Deref(q, _) => ExprCounts(q, p)
    case Member(o, _, _) => AddressCounts(o, p)
    case _ => Zero()
  }

  /** Two labels and three branches for `&&` and `||`, a call fixup for each call of an own function. */
  function ExprCounts(e: Expr, p: Program): Counts
    decreases e, 1
  {
    match e
    case Num(_) => Zero()
    case StrLit(_) => Zero()
    case VarRef(_, _) => Zero()
    case Assign(d, s) => AddressCounts(d, p).Plus(ExprCounts(s, p))
    case Deref(q, _) => ExprCounts(q, p)
    case Member(_, _, _) => AddressCounts(e, p)
    case AddrOf(o) => AddressCounts(o, p)
    case Neg(x) => ExprCounts(x, p)
    case Not(x) => ExprCounts(x, p)
    case LogAnd(x, y) => Counts(2, 3, 0).Plus(ExprCounts(x, p)).Plus(ExprCounts(y, p))
    case LogOr(x, y) => Counts(2, 3, 0).Plus(ExprCounts(x, p)).Plus(ExprCounts(y, p))
    case Binary(_, x, y) => ExprCounts(y, p).Plus(ExprCounts(x, p))
    case Call(name, args) => ArgsCounts(args, p).Plus(Counts(0, 0, if Find(p.funcs, name, 0) >= 0 then 1 else 0))
  }

  function ArgsCounts(args: Args, p: Program): Counts
    decreases args, 0
  {
    match args
    case NoArgs => Zero()
    case Arg(e, rest) => ExprCounts(e, p).Plus(ArgsCounts(rest, p))
  }

  function OptCounts(e: Maybe<Expr>, p: Program): Counts {
    if e.Nothing? then Zero() else ExprCounts(e.get, p)
  }

  function TickCounts(p: Program): Counts {
    Counts(0, if p.tick == 0 then 0 else 1, 0)
  }

  /** Each label of a switch takes a label, each but the defaults a branch. */
  function ChainCounts(cs: seq<Label>, n: nat): Counts
    requires n <= |cs|
  {
    if n == 0 then Zero()
    else Counts(1, if cs[n - 1].Default? then 0 else 1, 0).Plus(ChainCounts(cs, n - 1))
  }

  function StmtCounts(s: Stmt, p: Program): Counts {
    match s
    case ExprStmt(e) => ExprCounts(e, p)
    case Return(e) => ExprCounts(e, p).Plus(Counts(0, 1, 0))
    case If(c, a, b) =>
      Counts(2, 2, 0).Plus(ExprCounts(c, p)).Plus(StmtCounts(a, p)).Plus(if b.Just? then StmtCounts(b.get, p) else Zero())
    case While(c, b) => Counts(2, 2, 0).Plus(ExprCounts(c, p)).Plus(StmtCounts(b, p)).Plus(TickCounts(p))
    case For(i, c, n, b) =>
      Counts(3, if c.Just? then 2 else 1, 0).Plus(if i.Just? then StmtCounts(i.get, p) else Zero()).Plus(OptCounts(c, p))
        .Plus(StmtCounts(b, p)).Plus(OptCounts(n, p)).Plus(TickCounts(p))
    case Switch(c, b) =>
      Counts(1, 1, 0).Plus(ExprCounts(c, p)).Plus(ChainCounts(Cases(b), |Cases(b)|)).Plus(StmtCounts(b, p))
    case Case(_, i) => StmtCounts(i, p)
    case Break => Counts(0, 1, 0)
    case Continue => Counts(0, 1, 0)
    case Block(ss) => ListCounts(ss, p)
  }

  function ListCounts(ss: Stmts, p: Program): Counts {
    match ss
    case Done => Zero()
    case Then(s, rest) => StmtCounts(s, p).Plus(ListCounts(rest, p))
  }

  // ---------- demands, and the generator's state as seen from outside ----------

  /** A stretch of generation: accepted or not, the code it must leave, what it takes from the tables. */
  datatype Use = Use(wf: bool, code: Code, n: Counts)

  function Ins(c: Code): Use { Use(true, c, Zero()) }
  function Jump(i: Instr): Use { Use(true, [i], Counts(0, 1, 0)) }
  function Fresh(n: nat): Use { Use(true, [], Counts(n, 0, 0)) }

  function Cat(a: Use, b: Use): Use {
    Use(a.wf && b.wf, a.code + b.code, a.n.Plus(b.n))
  }

  function AddressUse(e: Expr, k: Ctx, p: Program): Use {
    Use(AddressWf(e, p), AddressCode(e, k), AddressCounts(e, p))
  }

  function ExprUse(e: Expr, k: Ctx, p: Program): Use {
    Use(ExprWf(e, p), ExprCode(e, k), ExprCounts(e, p))
  }

  function OptUse(e: Maybe<Expr>, k: Ctx, p: Program): Use {
    if e.Nothing? then Ins([]) else ExprUse(e.get, k, p)
  }

  function ArgsUse(args: Args, k: Ctx, p: Program): Use {
    Use(ArgsWf(args, p), ArgsCode(args, k), ArgsCounts(args, p))
  }

  function TickUse(k: Ctx, p: Program, pos: int, out: int): Use {
    Use(true, TickCode(k, pos, out), TickCounts(p))
  }

  function ChainUse(cs: seq<Label>, at: seq<int>, pos: int, n: nat): Use
    requires n <= |cs| && |at| == |cs|
  {
    Use(true, ChainCode(cs, at, pos, n), ChainCounts(cs, n))
  }

  function StmtUse(s: Stmt, k: Ctx, p: Program, pos: int, x: Exits, inBrk: bool, inCont: bool): Use {
    Use(StmtWf(s, p, inBrk, inCont), StmtCode(s, k, pos, x), StmtCounts(s, p))
  }

  function OptStmtUse(s: Maybe<Stmt>, k: Ctx, p: Program, pos: int, x: Exits, inBrk: bool, inCont: bool): Use {
    if s.Nothing? then Ins([]) else StmtUse(s.get, k, p, pos, x, inBrk, inCont)
  }

  function ListUse(ss: Stmts, k: Ctx, p: Program, pos: int, x: Exits, inBrk: bool, inCont: bool): Use {
    Use(ListWf(ss, p, inBrk, inCont), ListCode(ss, k, pos, x), ListCounts(ss, p))
  }

  function FuncUse(f: Func, k: Ctx, p: Program, pos: int): Use {
    Use(StmtWf(f.body, p, false, false), FuncCode(f, k, pos), Counts(1, 0, 0).Plus(StmtCounts(f.body, p)))
  }

  /**
   `Bad`: an error was reported or the buffer overflowed. `Good`: the buffer will hold `spec` once
   everything is patched. `Silent`: it was to hold `spec`, but a fixup was dropped and nobody was told.
   */
  datatype Status =
    | Bad
    | Silent(spec: Code, labels: nat)
    | Good(spec: Code, n: Counts)

  function Charge(s: Status, u: Use, cap: nat): Status {
    match s
    case Bad => Bad
    case Silent(spec, labels) =>
      if u.wf && |spec| + |u.code| <= cap && labels + u.n.labels <= MAXLAB
      then Silent(spec + u.code, labels + u.n.labels) else Bad
    case Good(spec, n) =>
      if u.wf && |spec| + |u.code| <= cap && n.labels + u.n.labels <= MAXLAB then
        if n.branches + u.n.branches <= MAXBFX && n.calls + u.n.calls <= MAXCFX
        then Good(spec + u.code, n.Plus(u.n))
        else Silent(spec + u.code, n.labels + u.n.labels)
      else Bad
  }

  /** Doing one stretch and then another is doing the two as one. */
  lemma ChargeCat(s: Status, a: Use, b: Use, cap: nat)
    ensures Charge(Charge(s, a, cap), b, cap) == Charge(s, Cat(a, b), cap)
  {
    if !s.Bad? {
      assert s.spec + a.code + b.code == s.spec + (a.code + b.code);
    }
  }

  lemma CatSize(a: Use, b: Use)
    ensures |Cat(a, b).code| == |a.code| + |b.code|
  {
  }

  lemma CatSizes(a: Use, b: Use, c: Use)
    ensures |Cat(Cat(a, b), c).code| == |a.code| + |b.code| + |c.code|
  {
  }

  lemma CatCat(a: Use, b: Use, c: Use)
    ensures Cat(a, Cat(b, c)) == Cat(Cat(a, b), c)
  {
    assert a.code + (b.code + c.code) == a.code + b.code + c.code;
    SameUse(Cat(a, Cat(b, c)), Cat(Cat(a, b), c));
  }

  /** Bookkeeping of a run: `v` comes after `u`, and where the next word goes. */
  lemma Join(s: Status, u: Use, v: Use, cap: nat) returns (w: Use)
    ensures w == Cat(u, v) && |w.code| == |u.code| + |v.code|
    ensures Charge(Charge(s, u, cap), v, cap) == Charge(s, w, cap)
    ensures Charge(s, w, cap).Good? ==> Charge(s, u, cap).Good? && s.Good? && Size(Charge(s, w, cap)) == Size(s) + |w.code|
    ensures s.Bad? ==> Charge(s, w, cap).Bad?
  {
    w := Cat(u, v);
    ChargeCat(s, u, v, cap);
  }

  lemma First(s: Status, u: Use, cap: nat) returns (w: Use)
    ensures w == u
    ensures Charge(s, w, cap).Good? ==> s.Good? && Size(Charge(s, w, cap)) == Size(s) + |w.code|
    ensures s.Bad? ==> Charge(s, w, cap).Bad?
  {
    w := u;
  }

  lemma ChargeNothing(s: Status, cap: nat)
    requires Within(s, cap)
    ensures Charge(s, Ins([]), cap) == s
  {
    if !s.Bad? {
      assert s.spec + [] == s.spec;
    }
  }

  predicate Within(s: Status, cap: nat) {
    match s
    case Bad => true
    case Silent(spec, labels) => |spec| <= cap && labels <= MAXLAB
    case Good(spec, n) => |spec| <= cap && n.labels <= MAXLAB && n.branches <= MAXBFX && n.calls <= MAXCFX
  }

  /** Position of the next word, if that is still meaningful. */
  function Size(s: Status): nat {
    match s
    case Bad => 0
    case Silent(spec, _) => |spec|
    case Good(spec, _) => |spec|
  }

  // ---------- the steps of each construct add up ----------

  lemma NilPlus(a: Code, b: Code)
    requires |a| == 0
    ensures a + b == b
  {
  }

  lemma SameUse(u: Use, v: Use)
    requires u.wf == v.wf && u.code == v.code && u.n == v.n
    ensures u == v
  {
  }

  lemma FreshMore(m: nat, n: nat)
    ensures Cat(Fresh(m), Fresh(n)) == Fresh(m + n)
  {
    NilPlus(Fresh(m).code, Fresh(n).code);
  }

  function TruthUse(kind: Kind, v: nat): (u: Use)
    requires v <= 1
    ensures |u.code| == 4
  {
    Use(true, [BranchOf(kind, 0, 3), Movz(0, v), B(2), Movz(0, 1 - v)], Counts(0, 2, 0))
  }

  lemma TruthSteps(kind: Kind, v: nat)
    requires v <= 1
    ensures Cat(Cat(Cat(Jump(BranchOf(kind, 0, 3)), Ins([Movz(0, v)])), Jump(B(2))), Ins([Movz(0, 1 - v)])) == TruthUse(kind, v)
  {
    var a, b, c, d := BranchOf(kind, 0, 3), Movz(0, v), B(2), Movz(0, 1 - v);
    assert [a] + [b] + [c] + [d] == [a, b, c, d];
  }

  function AndUse(a: Use, b: Use): Use {
    Use(a.wf && b.wf, AndCode(a.code, b.code), Counts(2, 3, 0).Plus(a.n).Plus(b.n))
  }

  /** Two labels, the left operand, and the branch past the right one. */
  lemma AndHead(a: Use, i: Instr)
    ensures Cat(Fresh(2), Cat(a, Jump(i))) == Cat(Cat(Fresh(2), a), Jump(i))
    ensures |Cat(Fresh(2), Cat(a, Jump(i))).code| == |a.code| + 1
  {
    CatCat(Fresh(2), a, Jump(i));
  }

  lemma AndSteps(a: Use, b: Use)
    ensures Cat(Cat(Cat(Cat(Fresh(2), a), Jump(Cbz(|b.code| + 4))), b), TruthUse(KCbz, 1)) == AndUse(a, b)
  {
    assert [] + a.code == a.code;
  }

  function OrUse(a: Use, b: Use): Use {
    Use(a.wf && b.wf, OrCode(a.code, b.code), Counts(2, 3, 0).Plus(a.n).Plus(b.n))
  }

  lemma OrSteps(a: Use, b: Use)
    ensures Cat(Cat(Cat(Cat(Cat(Fresh(2), a), Ins([CmpZero(0)])), Jump(Cbnz(|b.code| + 4))), b), TruthUse(KCbnz, 0)) == OrUse(a, b)
  {
    assert [] + a.code + [CmpZero(0)] + [Cbnz(|b.code| + 4)] == a.code + [CmpZero(0), Cbnz(|b.code| + 4)];
  }

  function BinaryUse(op: BinOp, a: Use, b: Use): Use {
    Use(a.wf && b.wf, BinaryCode(op, a.code, b.code), b.n.Plus(a.n))
  }

  function AssignUse(a: Use, b: Use, ty: Ty): Use {
    Use(a.wf && b.wf, AssignCode(a.code, b.code, ty), a.n.Plus(b.n))
  }

  lemma ImmSteps(r: nat, v: U64)
    ensures Cat(Cat(Cat(Ins([Movz(r, Field(v, 0))]), Ins([Movk(r, Field(v, 1), 1)])), Ins([Movk(r, Field(v, 2), 2)])), Ins([Movk(r, Field(v, 3), 3)]))
            == Ins(LoadImm(r, v))
  {
    hide Field, Cat, Ins;
    var a, b, c, d := Movz(r, Field(v, 0)), Movk(r, Field(v, 1), 1), Movk(r, Field(v, 2), 2), Movk(r, Field(v, 3), 3);
    InsCat([a], [b]);
    InsCat([a] + [b], [c]);
    InsCat([a] + [b] + [c], [d]);
    assert LoadImm(r, v) == [a] + [b] + [c] + [d];
  }

  lemma ImmIs(r: nat, v: U64)
    ensures LoadImm(r, v) == [Movz(r, Field(v, 0)), Movk(r, Field(v, 1), 1), Movk(r, Field(v, 2), 2), Movk(r, Field(v, 3), 3)]
  {
    hide Field;
  }

  /** A refused stretch spoils the run. */
  lemma ChargeRefused(s: Status, u: Use, cap: nat)
    ensures !u.wf || s.Bad? ==> Charge(s, u, cap) == Bad
  {
  }

  lemma InsCat(a: Code, b: Code)
    ensures Cat(Ins(a), Ins(b)) == Ins(a + b)
  {
    hide Zero, Counts.Plus;
    PlusZero(Zero());
  }

  lemma ArgSteps(e: Expr, rest: Args, k: Ctx, p: Program)
    ensures Cat(Cat(ExprUse(e, k, p), Ins([Push])), ArgsUse(rest, k, p)) == ArgsUse(Arg(e, rest), k, p)
  {
    hide ExprCode, ExprWf, ExprCounts;
  }

  lemma CallSteps(name: string, args: Args, k: Ctx, p: Program)
    requires args.Length() <= 8 && Known(name, p)
    ensures var own := if Find(p.funcs, name, 0) >= 0 then 1 else 0;
            Cat(Cat(Cat(ArgsUse(args, k, p), Ins(PopArgs(args.Length()))), Use(true, LoadImm(9, CallTarget(name, k)), Counts(0, 0, own))), Ins([Blr(9)]))
            == ExprUse(Call(name, args), k, p)
  {
    hide Known, CallTarget, LoadImm, PopArgs, ArgsCode, ArgsWf, ArgsCounts;
  }

  lemma NotKnown(name: string, args: Args, k: Ctx, p: Program)
    ensures args.Length() > 8 || !Known(name, p) ==> !ExprUse(Call(name, args), k, p).wf
    ensures Known(name, p) <==> Find(p.funcs, name, 0) >= 0 || (name in p.externs && p.externs[name] != 0)
  {
  }

  /** What an lvalue's code consists of. */
  lemma AddressSteps(e: Expr, k: Ctx, p: Program)
    ensures match e
      case VarRef(Global(a), _) => AddressUse(e, k, p) == Ins(LoadImm(0, a))
      case VarRef(Local(i), _) => AddressUse(e, k, p) == Ins(if i < |k.offs| then SlotAddress(0, Wrap(k.offs[i])) else [])
      case StrLit(a) => AddressUse(e, k, p) == Ins(LoadImm(0, a))
      case Deref(q, _) => AddressUse(e, k, p) == ExprUse(q, k, p)
      case Member(o, off, _) =>
        AddressUse(e, k, p) == if off == 0 then AddressUse(o, k, p) else Cat(AddressUse(o, k, p), Ins([AddImm(0, 0, off % 0x1000)]))
      case _ => !AddressUse(e, k, p).wf
  {
    hide LoadImm, SlotAddress, ExprCode, ExprCounts, ExprWf;
    if e.Member? {
      var u := AddressUse(e.obj, k, p);
      assert u.code + [] == u.code;
      assert u.n.Plus(Zero()) == u.n;
      assert AddressUse(e, k, p).n == u.n;
    }
  }

  /** What an expression's code consists of. */
  lemma ExprSteps(e: Expr, k: Ctx, p: Program)
    ensures match e
      case Num(v) => ExprUse(e, k, p) == Ins(LoadImm(0, v))
      case StrLit(a) => ExprUse(e, k, p) == Ins(LoadImm(0, a))
      case VarRef(_, ty) => ExprUse(e, k, p) == Cat(AddressUse(e, k, p), Ins(LoadCode(ty)))
      case Assign(d, x) => ExprUse(e, k, p) == AssignUse(AddressUse(d, k, p), ExprUse(x, k, p), TypeOf(d))
      case Deref(q, ty) => ExprUse(e, k, p) == Cat(ExprUse(q, k, p), Ins(LoadCode(ty)))
      case Member(_, _, ty) => ExprUse(e, k, p) == Cat(AddressUse(e, k, p), Ins(LoadCode(ty)))
      case AddrOf(o) => ExprUse(e, k, p) == AddressUse(o, k, p)
      case Neg(x) => ExprUse(e, k, p) == Cat(ExprUse(x, k, p), Ins([SubReg(0, R31, 0)]))
      case Not(x) => ExprUse(e, k, p) == Cat(ExprUse(x, k, p), Ins([CmpZero(0), Csinc(0, Invert(EQ))]))
      case LogAnd(x, y) => ExprUse(e, k, p) == AndUse(ExprUse(x, k, p), ExprUse(y, k, p))
      case LogOr(x, y) => ExprUse(e, k, p) == OrUse(ExprUse(x, k, p), ExprUse(y, k, p))
      case Binary(op, x, y) => ExprUse(e, k, p) == BinaryUse(op, ExprUse(x, k, p), ExprUse(y, k, p))
      case Call(_, _) => true
  {
    hide LoadImm, LoadCode, AndCode, OrCode, BinaryCode, AssignCode, StoreCode, AddressCode, Cat;
    var u := ExprUse(e, k, p);
    match e
    case Num(v) => assert u.code == LoadImm(0, v) && u.n == Zero();
    case StrLit(a) => assert u.code == LoadImm(0, a) && u.n == Zero();
    case VarRef(_, ty) => ReadSteps(e, ty, k, p);
    case Assign(d, x) => assert u.n == AddressCounts(d, p).Plus(ExprCounts(x, p));
    case Deref(q, ty) => InsAfter(ExprUse(q, k, p), LoadCode(ty));
    case Member(_, _, ty) => ReadSteps(e, ty, k, p);
    case AddrOf(o) => assert u.n == AddressCounts(o, p);
    case Neg(x) => InsAfter(ExprUse(x, k, p), [SubReg(0, R31, 0)]);
    case Not(x) => NotShape(ExprCode(x, k)); InsAfter(ExprUse(x, k, p), [CmpZero(0), Csinc(0, Invert(EQ))]);
    case LogAnd(x, y) => assert u.n == Counts(2, 3, 0).Plus(ExprCounts(x, p)).Plus(ExprCounts(y, p));
    case LogOr(x, y) => assert u.n == Counts(2, 3, 0).Plus(ExprCounts(x, p)).Plus(ExprCounts(y, p));
    case Binary(op, x, y) => assert u.n == ExprCounts(y, p).Plus(ExprCounts(x, p));
    case Call(_, _) =>
  }

  /** Plain instructions after a stretch only lengthen its code. */
  lemma InsAfter(u: Use, c: Code)
    ensures Cat(u, Ins(c)) == Use(u.wf, u.code + c, u.n)
  {
    PlusZero(u.n);
    assert Cat(u, Ins(c)).n == u.n;
    assert Cat(u, Ins(c)).code == u.code + c;
  }

  lemma VarNeedsNothing(e: Expr, p: Program)
    ensures e.VarRef? ==> AddressCounts(e, p) == Zero() && AddressWf(e, p)
  {
  }

  lemma ReadSteps(e: Expr, ty: Ty, k: Ctx, p: Program)
    requires e.VarRef? || e.Member?
    requires ty == e.ty
    ensures ExprUse(e, k, p) == Cat(AddressUse(e, k, p), Ins(LoadCode(ty)))
  {
    hide LoadCode, AddressCode, AddressCounts, Cat, Ins;
    InsAfter(AddressUse(e, k, p), LoadCode(ty));
    VarNeedsNothing(e, p);
  }

  lemma PlusZero(n: Counts)
    ensures n.Plus(Zero()) == n
  {
  }

  lemma CompareShape(op: BinOp)
    ensures op.Eq? ==> OpCode(op) == [CmpReg(0, 1), Csinc(0, Invert(EQ))]
    ensures op.Ne? ==> OpCode(op) == [CmpReg(0, 1), Csinc(0, Invert(NE))]
    ensures op.Lt? ==> OpCode(op) == [CmpReg(0, 1), Csinc(0, Invert(LT))]
    ensures op.Le? ==> OpCode(op) == [CmpReg(0, 1), Csinc(0, Invert(LE))]
  {
  }

  lemma NotShape(c: Code)
    ensures c + [CmpZero(0)] + Cset(EQ) == c + [CmpZero(0), Csinc(0, Invert(EQ))]
  {
  }

  // ---------- statements ----------

  /** Condition, first branch, and the jump over the second. */
  function ThenUse(c: Use, a: Use, over: Instr): Use {
    Cat(Cat(Cat(c, Jump(Cbz(|a.code| + 2))), a), Jump(over))
  }

  function HeadUse(s: Stmt, k: Ctx, p: Program, pos: int, x: Exits, inBrk: bool, inCont: bool): Use
    requires s.If?
  {
    var c := ExprUse(s.cond, k, p);
    var pa := pos + |c.code| + 1;
    ThenUse(c, StmtUse(s.thn, k, p, pa, x, inBrk, inCont), B(pos + StmtSize(s, k) - (pa + StmtSize(s.thn, k))))
  }

  lemma IfSteps(s: Stmt, k: Ctx, p: Program, pos: int, x: Exits, inBrk: bool, inCont: bool)
    requires s.If?
    ensures var pb := pos + |ExprUse(s.cond, k, p).code| + 1 + StmtSize(s.thn, k) + 1;
            Cat(Cat(Fresh(2), HeadUse(s, k, p, pos, x, inBrk, inCont)), OptStmtUse(s.els, k, p, pb, x, inBrk, inCont))
            == StmtUse(s, k, p, pos, x, inBrk, inCont)
  {
    hide StmtSize, ThenUse, ExprUse, StmtUse, OptStmtUse, Cat;
    var c := ExprUse(s.cond, k, p);
    var pa := pos + |c.code| + 1;
    var over := B(pos + StmtSize(s, k) - (pa + StmtSize(s.thn, k)));
    var a := StmtUse(s.thn, k, p, pa, x, inBrk, inCont);
    var e := OptStmtUse(s.els, k, p, pa + StmtSize(s.thn, k) + 1, x, inBrk, inCont);
    IfParts(s, k, p, pos, x, inBrk, inCont);
    IfCat(c, a, e, over);
    SameUse(Cat(Cat(Fresh(2), ThenUse(c, a, over)), e), StmtUse(s, k, p, pos, x, inBrk, inCont));
  }

  lemma IfCat(c: Use, a: Use, e: Use, over: Instr)
    ensures var u := Cat(Cat(Fresh(2), ThenUse(c, a, over)), e);
            && u.wf == (c.wf && a.wf && e.wf)
            && u.code == c.code + [Cbz(|a.code| + 2)] + a.code + [over] + e.code
            && u.n == Counts(2, 2, 0).Plus(c.n).Plus(a.n).Plus(e.n)
  {
    hide ThenUse;
    ThenParts(c, a, over);
    NilPlus(Fresh(2).code, ThenUse(c, a, over).code);
  }

  lemma IfParts(s: Stmt, k: Ctx, p: Program, pos: int, x: Exits, inBrk: bool, inCont: bool)
    requires s.If?
    ensures var c := ExprUse(s.cond, k, p);
            var pa := pos + |c.code| + 1;
            var pb := pa + StmtSize(s.thn, k) + 1;
            var a := StmtUse(s.thn, k, p, pa, x, inBrk, inCont);
            var e := OptStmtUse(s.els, k, p, pb, x, inBrk, inCont);
            var u := StmtUse(s, k, p, pos, x, inBrk, inCont);
            && u.wf == (c.wf && a.wf && e.wf) && |a.code| == StmtSize(s.thn, k)
            && u.code == c.code + [Cbz(|a.code| + 2)] + a.code + [B(pos + StmtSize(s, k) - (pb - 1))] + e.code
            && u.n == Counts(2, 2, 0).Plus(c.n).Plus(a.n).Plus(e.n)
  {
    hide ExprCode, ExprWf, ExprCounts, StmtSize;
  }

  lemma ThenParts(c: Use, a: Use, over: Instr)
    ensures var t := ThenUse(c, a, over);
            && t.wf == (c.wf && a.wf) && t.code == c.code + [Cbz(|a.code| + 2)] + a.code + [over]
            && t.n == Counts(c.n.labels + a.n.labels, c.n.branches + a.n.branches + 2, c.n.calls + a.n.calls)
  {
  }

  lemma WhileSteps(s: Stmt, k: Ctx, p: Program, pos: int, x: Exits, inBrk: bool, inCont: bool)
    requires s.While?
    ensures var c := ExprUse(s.cond, k, p);
            var pb := pos + |c.code| + 1;
            var end := pos + StmtSize(s, k);
            Cat(Cat(Cat(Cat(Cat(Fresh(2), c), Jump(Cbz(end - (pb - 1)))), StmtUse(s.body, k, p, pb, Exits(end, pos, x.ret), true, true)),
                TickUse(k, p, pb + StmtSize(s.body, k), end)), Jump(B(pos - (end - 1))))
            == StmtUse(s, k, p, pos, x, inBrk, inCont)
  {
    hide ExprCode, ExprWf, ExprCounts, TickCode, TickCounts;
    var c := ExprCode(s.cond, k);
    assert [] + c == c;
  }

  /** The test of a `for` with its way out, if there is one. */
  function TestUse(e: Maybe<Expr>, k: Ctx, p: Program, exit: Instr): Use {
    if e.Nothing? then Ins([]) else Cat(ExprUse(e.get, k, p), Jump(exit))
  }

  /** A `for` after its initialiser. */
  function ForLoopUse(s: Stmt, k: Ctx, p: Program, pos: int, x: Exits): Use
    requires s.For?
  {
    var pb := ForBodyAt(s, k, pos);
    var pi := ForIncAt(s, k, pos);
    var end := pos + StmtSize(s, k);
    var n := OptUse(s.inc, k, p);
    ForParts(TestUse(s.test, k, p, Cbz(end - (pb - 1))), StmtUse(s.body, k, p, pb, Exits(end, pi, x.ret), true, true), n,
      TickUse(k, p, pi + |n.code|, end), Jump(B(ForTestAt(s, k, pos) - (end - 1))))
  }

  function ForParts(t: Use, b: Use, n: Use, g: Use, j: Use): Use {
    Cat(Cat(Cat(Cat(t, b), n), g), j)
  }

  lemma Assoc(a: Code, b: Code, c: Code)
    ensures a + (b + c) == a + b + c
  {
  }

  lemma ForPartsCode(i: Use, t: Use, b: Use, n: Use, g: Use, j: Use)
    ensures Cat(Cat(Fresh(3), i), ForParts(t, b, n, g, j)).code == i.code + t.code + b.code + n.code + g.code + j.code
  {
    assert [] + [] + i.code == i.code;
    Assoc(i.code, t.code + b.code + n.code + g.code, j.code);
    Assoc(i.code, t.code + b.code + n.code, g.code);
    Assoc(i.code, t.code + b.code, n.code);
    Assoc(i.code, t.code, b.code);
  }

  lemma ForPartsCounts(i: Use, t: Use, b: Use, n: Use, g: Use, j: Use)
    ensures var u := Cat(Cat(Fresh(3), i), ForParts(t, b, n, g, j));
            && u.wf == (i.wf && t.wf && b.wf && n.wf && g.wf && j.wf)
            && u.n == Counts(3, 0, 0).Plus(i.n).Plus(t.n).Plus(b.n).Plus(n.n).Plus(g.n).Plus(j.n)
  {
    hide Cat;
    CatParts(Fresh(3), i);
    CatParts(t, b);
    CatParts(Cat(t, b), n);
    CatParts(Cat(Cat(t, b), n), g);
    CatParts(Cat(Cat(Cat(t, b), n), g), j);
    CatParts(Cat(Fresh(3), i), ForParts(t, b, n, g, j));
  }

  lemma CatParts(a: Use, b: Use)
    ensures Cat(a, b).wf == (a.wf && b.wf) && Cat(a, b).n == a.n.Plus(b.n)
  {
  }

  /** A switch up to its body. */
  function DispatchUse(s: Stmt, k: Ctx, p: Program, pos: int): Use
    requires s.Switch?
  {
    var c := ExprUse(s.cond, k, p);
    var pb := pos + SwitchHead(s.cond, s.body, k);
    var at := CaseAt(s.body, k, pb);
    var cs := Cases(s.body);
    Cat(Cat(Cat(Fresh(1), c), ChainUse(cs, at, pos + |c.code|, |cs|)), Jump(B(Otherwise(cs, at, pos + StmtSize(s, k)) - (pb - 1))))
  }

  lemma SwitchSteps(s: Stmt, k: Ctx, p: Program, pos: int, x: Exits, inBrk: bool, inCont: bool)
    requires s.Switch?
    ensures Cat(DispatchUse(s, k, p, pos),
                StmtUse(s.body, k, p, pos + SwitchHead(s.cond, s.body, k), Exits(pos + StmtSize(s, k), x.cont, x.ret), true, inCont))
            == StmtUse(s, k, p, pos, x, inBrk, inCont)
  {
    hide ExprCode, ExprWf, ExprCounts, ChainCode, ChainCounts, CaseAt, Cases, Otherwise;
    var c := ExprCode(s.cond, k);
    assert [] + c == c;
  }

  /** One label of a switch and its test. */
  function CaseUse(c: Label, at: int, pos: int): Use {
    if c.Default? then Fresh(1)
    else Cat(Cat(Cat(Fresh(1), Ins(LoadImm(1, c.val))), Ins([CmpReg(0, 1)])), Jump(Bcond(EQ, at - (pos + 5))))
  }

  lemma ChainSteps(cs: seq<Label>, at: seq<int>, pos: int, n: nat)
    requires 0 < n <= |cs| && |at| == |cs|
    ensures var c := CaseUse(cs[n - 1], at[n - 1], pos);
            Cat(c, ChainUse(cs, at, pos + |c.code|, n - 1)) == ChainUse(cs, at, pos, n)
  {
    hide LoadImm;
    var c := CaseUse(cs[n - 1], at[n - 1], pos);
    var u := ChainUse(cs, at, pos + |c.code|, n - 1);
    assert [] + u.code == u.code;
    if cs[n - 1].CaseOf? {
      var i, j := CmpReg(0, 1), Bcond(EQ, at[n - 1] - (pos + 5));
      assert [] + LoadImm(1, cs[n - 1].val) + [i] + [j] == LoadImm(1, cs[n - 1].val) + [i, j];
    }
    assert Cat(c, u).n == ChainCounts(cs, n);
  }

  lemma ChainNone(cs: seq<Label>, at: seq<int>, pos: int)
    requires |at| == |cs|
    ensures ChainUse(cs, at, pos, 0) == Ins([])
  {
  }

  lemma SwitchSizes(s: Stmt, k: Ctx, p: Program, pos: int, x: Exits, inCont: bool)
    requires s.Switch?
    ensures var c := |ExprUse(s.cond, k, p).code|;
            var pb := pos + SwitchHead(s.cond, s.body, k);
            var at := CaseAt(s.body, k, pb);
            && |ChainUse(Cases(s.body), at, pos + c, |Cases(s.body)|).code| == pb - 1 - pos - c
            && |StmtUse(s.body, k, p, pb, Exits(pos + StmtSize(s, k), x.cont, x.ret), true, inCont).code| == pos + StmtSize(s, k) - pb
  {
    hide ExprCode;
  }

  lemma JumpSteps(s: Stmt, k: Ctx, p: Program, pos: int, x: Exits, inBrk: bool, inCont: bool)
    ensures s.Return? ==> var c := ExprUse(s.e, k, p);
            Cat(c, Jump(B(x.ret - (pos + |c.code|)))) == StmtUse(s, k, p, pos, x, inBrk, inCont)
    ensures s.Break? ==> StmtUse(s, k, p, pos, x, inBrk, inCont) == Use(inBrk, [B(x.brk - pos)], Counts(0, 1, 0))
    ensures s.Continue? ==> StmtUse(s, k, p, pos, x, inBrk, inCont) == Use(inCont, [B(x.cont - pos)], Counts(0, 1, 0))
  {
    hide ExprCode, ExprWf, ExprCounts, Counts.Plus;
  }

  lemma StmtSteps(s: Stmt, k: Ctx, p: Program, pos: int, x: Exits, inBrk: bool, inCont: bool)
    ensures s.ExprStmt? ==> StmtUse(s, k, p, pos, x, inBrk, inCont) == ExprUse(s.e, k, p)
    ensures s.Case? ==> StmtUse(s, k, p, pos, x, inBrk, inCont) == StmtUse(s.inner, k, p, pos, x, inBrk, inCont)
    ensures s.Case? ==> CaseAt(s, k, pos) == [pos] + CaseAt(s.inner, k, pos)
    ensures s.Block? ==> StmtUse(s, k, p, pos, x, inBrk, inCont) == ListUse(s.list, k, p, pos, x, inBrk, inCont)
    ensures s.Block? ==> CaseAt(s, k, pos) == CasesAt(s.list, k, pos)
  {
    hide ExprCode, ExprWf, ExprCounts;
  }

  lemma ListSizes(ss: Stmts, k: Ctx, p: Program, pos: int, x: Exits, inBrk: bool, inCont: bool)
    requires ss.Then?
    ensures |StmtUse(ss.first, k, p, pos, x, inBrk, inCont).code| == StmtSize(ss.first, k)
    ensures CasesAt(ss, k, pos) == CaseAt(ss.first, k, pos) + CasesAt(ss.rest, k, pos + StmtSize(ss.first, k))
  {
  }

  lemma TickSteps(k: Ctx, p: Program, pos: int, out: int)
    requires k.tick == p.tick
    ensures k.tick == 0 ==> TickUse(k, p, pos, out) == Ins([])
    ensures k.tick != 0 ==> Cat(Cat(Ins(LoadImm(9, k.tick)), Ins([Blr(9)])), Jump(Cbz(out - (pos + 5)))) == TickUse(k, p, pos, out)
  {
    hide LoadImm;
    var c, i, j := LoadImm(9, k.tick), Blr(9), Cbz(out - (pos + 5));
    assert c + [i] + [j] == c + [i, j];
  }

  lemma ListSteps(ss: Stmts, k: Ctx, p: Program, pos: int, x: Exits, inBrk: bool, inCont: bool)
    ensures ss.Done? ==> ListUse(ss, k, p, pos, x, inBrk, inCont) == Ins([])
    ensures ss.Then? ==> Cat(StmtUse(ss.first, k, p, pos, x, inBrk, inCont), ListUse(ss.rest, k, p, pos + StmtSize(ss.first, k), x, inBrk, inCont))
                         == ListUse(ss, k, p, pos, x, inBrk, inCont)
  {
    hide StmtCode, StmtWf, StmtCounts;
  }

  ghost function Elems(labs: seq<int>): (r: set<int>)
    ensures forall l :: l in r <==> l in labs
  {
    set l | l in labs
  }

  /** Distinct labels that are going to be placed at `at`. */
  ghost predicate Marked(labs: seq<Lab>, at: seq<int>, goal: seq<int>) {
    && |labs| == |at|
    && (forall i :: 0 <= i < |labs| ==> labs[i] < |goal| && goal[labs[i]] == at[i])
    && (forall i, j :: 0 <= i < j < |labs| ==> labs[i] != labs[j])
  }

  lemma ElemsSplit(labs: seq<Lab>, m: nat)
    requires m <= |labs|
    ensures Elems(labs) == Elems(labs[..m]) + Elems(labs[m..])
  {
    var a, b := labs[..m], labs[m..];
    assert labs == a + b;
    assert forall l: int :: l in a + b <==> l in a || l in b;
  }

  lemma MarkedSplit(labs: seq<Lab>, a: seq<int>, b: seq<int>, goal: seq<int>)
    requires Marked(labs, a + b, goal)
    ensures Marked(labs[..|a|], a, goal) && Marked(labs[|a|..], b, goal)
    ensures Elems(labs[..|a|]) !! Elems(labs[|a|..])
  {
    assert forall i :: 0 <= i < |b| ==> b[i] == (a + b)[|a| + i];
    assert forall i :: 0 <= i < |a| ==> a[i] == (a + b)[i];
  }

  lemma ElemsNone()
    ensures Elems([]) == {}
  {
  }

  lemma MarkedMore(labs: seq<Lab>, at: seq<int>, goal: seq<int>, goal': seq<int>)
    requires Marked(labs, at, goal) && goal <= goal'
    ensures Marked(labs, at, goal')
  {
  }

  /** Sizes and case positions of the parts. */
  lemma IfSizes(s: Stmt, k: Ctx, p: Program, pos: int, x: Exits, inBrk: bool, inCont: bool)
    requires s.If?
    ensures var c := |ExprUse(s.cond, k, p).code|;
            var pa := pos + c + 1;
            var pb := pa + StmtSize(s.thn, k) + 1;
            var a := StmtUse(s.thn, k, p, pa, x, inBrk, inCont);
            var e := OptStmtUse(s.els, k, p, pb, x, inBrk, inCont);
            && |a.code| == StmtSize(s.thn, k)
            && StmtSize(s, k) == c + |a.code| + 2 + |e.code|
            && |HeadUse(s, k, p, pos, x, inBrk, inCont).code| == c + |a.code| + 2
            && CaseAt(s, k, pos) == CaseAt(s.thn, k, pa) + (if s.els.Just? then CaseAt(s.els.get, k, pb) else [])
  {
    hide ExprCode;
  }

  lemma WhileSizes(s: Stmt, k: Ctx, p: Program, pos: int, x: Exits)
    requires s.While?
    ensures var c := |ExprUse(s.cond, k, p).code|;
            var pb := pos + c + 1;
            var end := pos + StmtSize(s, k);
            && |StmtUse(s.body, k, p, pb, Exits(end, pos, x.ret), true, true).code| == StmtSize(s.body, k)
            && StmtSize(s, k) == c + StmtSize(s.body, k) + |TickUse(k, p, pb + StmtSize(s.body, k), end).code| + 2
            && CaseAt(s, k, pos) == CaseAt(s.body, k, pb)
  {
    hide ExprCode;
  }

  lemma ForSizes(s: Stmt, k: Ctx, p: Program, pos: int, x: Exits)
    requires s.For?
    ensures var pb := ForBodyAt(s, k, pos);
            var pi := ForIncAt(s, k, pos);
            var end := pos + StmtSize(s, k);
            var n := OptUse(s.inc, k, p);
            && pb == ForTestAt(s, k, pos) + |TestUse(s.test, k, p, Cbz(end - (pb - 1))).code|
            && (s.test.Just? ==> pb == ForTestAt(s, k, pos) + |ExprUse(s.test.get, k, p).code| + 1)
            && pi == pb + |StmtUse(s.body, k, p, pb, Exits(end, pi, x.ret), true, true).code|
            && |n.code| == |OptExpr(s.inc, k)|
            && end == pi + |n.code| + |TickUse(k, p, pi + |n.code|, end).code| + 1
            && CaseAt(s, k, pos) == CaseAt(s.body, k, pb)
  {
    hide ExprCode;
  }

  lemma ForInitSize(s: Stmt, k: Ctx, p: Program, pos: int, x: Exits, inBrk: bool, inCont: bool)
    requires s.For?
    ensures ForTestAt(s, k, pos) == pos + |OptStmtUse(s.init, k, p, pos, x, inBrk, inCont).code|
    ensures pos + StmtSize(s, k) == ForTestAt(s, k, pos) + |ForLoopUse(s, k, p, pos, x).code|
  {
    ForSizes(s, k, p, pos, x);
  }

  lemma ForCodeIs(s: Stmt, k: Ctx, pos: int, x: Exits, t: Code)
    requires s.For?
    requires t == OptExpr(s.test, k) + (if s.test.Just? then [Cbz(pos + StmtSize(s, k) - (ForBodyAt(s, k, pos) - 1))] else [])
    ensures var end := pos + StmtSize(s, k);
            var i := if s.init.Just? then StmtCode(s.init.get, k, pos, x) else [];
            StmtCode(s, k, pos, x) == i + t
              + StmtCode(s.body, k, ForBodyAt(s, k, pos), Exits(end, ForIncAt(s, k, pos), x.ret)) + OptExpr(s.inc, k)
              + TickCode(k, ForIncAt(s, k, pos) + |OptExpr(s.inc, k)|, end) + [B(ForTestAt(s, k, pos) - (end - 1))]
  {
    hide ExprCode, TickCode, ForTestAt, ForBodyAt, ForIncAt, StmtSize, OptExpr;
    var i := if s.init.Just? then StmtCode(s.init.get, k, pos, x) else [];
    Assoc(i, OptExpr(s.test, k), if s.test.Just? then [Cbz(pos + StmtSize(s, k) - (ForBodyAt(s, k, pos) - 1))] else []);
  }

  lemma TestIs(e: Maybe<Expr>, k: Ctx, p: Program, exit: Instr)
    ensures TestUse(e, k, p, exit).code == OptExpr(e, k) + (if e.Just? then [exit] else [])
    ensures TestUse(e, k, p, exit).wf == (e.Just? ==> ExprWf(e.get, p))
    ensures TestUse(e, k, p, exit).n == OptCounts(e, p).Plus(Counts(0, if e.Just? then 1 else 0, 0))
  {
    hide ExprCode, ExprWf, ExprCounts;
  }

  lemma ForAll(s: Stmt, k: Ctx, p: Program, pos: int, x: Exits, inBrk: bool, inCont: bool)
    requires s.For?
    ensures Cat(Cat(Fresh(3), OptStmtUse(s.init, k, p, pos, x, inBrk, inCont)), ForLoopUse(s, k, p, pos, x))
            == StmtUse(s, k, p, pos, x, inBrk, inCont)
  {
    hide ExprCode, ExprWf, ExprCounts, TickCode, TickCounts, ForTestAt, ForBodyAt, ForIncAt, StmtSize, StmtCode, Cat, ForParts, TestUse;
    var end := pos + StmtSize(s, k);
    var i := OptStmtUse(s.init, k, p, pos, x, inBrk, inCont);
    var exit := Cbz(end - (ForBodyAt(s, k, pos) - 1));
    var t := TestUse(s.test, k, p, exit);
    var b := StmtUse(s.body, k, p, ForBodyAt(s, k, pos), Exits(end, ForIncAt(s, k, pos), x.ret), true, true);
    var n := OptUse(s.inc, k, p);
    var g := TickUse(k, p, ForIncAt(s, k, pos) + |n.code|, end);
    var j := Jump(B(ForTestAt(s, k, pos) - (end - 1)));
    TestIs(s.test, k, p, exit);
    ForPartsCode(i, t, b, n, g, j);
    ForPartsCounts(i, t, b, n, g, j);
    ForCodeIs(s, k, pos, x, t.code);
    var u := Cat(Cat(Fresh(3), i), ForParts(t, b, n, g, j));
    var v := StmtUse(s, k, p, pos, x, inBrk, inCont);
    assert u.code == v.code;
    assert u.wf == v.wf;
    assert u.n == v.n;
  }

  lemma NotIn(labs: seq<Lab>, l: Lab)
    ensures l in labs <==> l in Elems(labs)
  {
  }

  lemma MarkedNone(at: seq<int>, goal: seq<int>)
    requires |at| == 0
    ensures Marked([], at, goal)
  {
  }

  lemma MarkedCons(l: Lab, labs: seq<Lab>, a: int, at: seq<int>, goal: seq<int>)
    requires Marked(labs, at, goal) && l !in Elems(labs) && l < |goal| && goal[l] == a
    ensures Marked([l] + labs, [a] + at, goal)
  {
  }

  lemma MarkedAt(labs: seq<Lab>, at: seq<int>, goal: seq<int>, i: nat)
    requires Marked(labs, at, goal) && i < |labs|
    ensures labs[i] < |goal| && goal[labs[i]] == at[i] && labs[i] in Elems(labs)
  {
  }

  lemma ElemsOne(l: Lab)
    ensures Elems([l]) == {l}
  {
    assert [l][0] in [l];
  }

  lemma ElemsCons(l: Lab, labs: seq<Lab>)
    ensures Elems([l] + labs) == {l} + Elems(labs)
  {
  }

  // ---------- functions ----------

  lemma ReserveShape(frame: nat)
    ensures frame == 0 ==> ReserveCode(frame) == []
    ensures 0 < frame <= 0xFFF ==> ReserveCode(frame) == [SubImm(R31, R31, frame)]
    ensures 0xFFF < frame ==> ReserveCode(frame) == LoadImm(9, Wrap(frame)) + [SubReg(R31, R31, 9)]
  {
  }

  lemma HeadSteps(f: Func)
    ensures Cat(Cat(Ins([StpFrame, AddImm(FP, R31, 0)]), Ins(ReserveCode(FrameSize(f.locals)))), Ins(SpillCode(ParamSlots(f), 0))) == Ins(HeadCode(f))
  {
    hide ReserveCode, SpillCode, ParamSlots, FrameSize, Ins, Cat;
    var a, b, c := [StpFrame, AddImm(FP, R31, 0)], ReserveCode(FrameSize(f.locals)), SpillCode(ParamSlots(f), 0);
    InsCat(a, b);
    InsCat(a + b, c);
  }

  lemma SpillSteps(slots: seq<Slot>, i: nat)
    requires i <= |slots|
    ensures i == |slots| ==> Ins(SpillCode(slots, i)) == Ins([])
    ensures i < |slots| ==> Cat(Ins(SpillOne(slots[i], i)), Ins(SpillCode(slots, i + 1))) == Ins(SpillCode(slots, i))
  {
    hide SpillOne, Ins, Cat;
    if i < |slots| {
      InsCat(SpillOne(slots[i], i), SpillCode(slots, i + 1));
    }
  }

  /** Return 0, restore the caller's frame, return. */
  function TailUse(): Use {
    Ins([Movz(0, 0), AddImm(R31, FP, 0), LdpFrame, Ret])
  }

  lemma TailSteps()
    ensures Cat(Cat(Cat(Ins([Movz(0, 0)]), Ins([AddImm(R31, FP, 0)])), Ins([LdpFrame])), Ins([Ret])) == TailUse()
  {
    hide Cat, Ins;
    InsCat([Movz(0, 0)], [AddImm(R31, FP, 0)]);
    InsCat([Movz(0, 0)] + [AddImm(R31, FP, 0)], [LdpFrame]);
    InsCat([Movz(0, 0)] + [AddImm(R31, FP, 0)] + [LdpFrame], [Ret]);
    assert [Movz(0, 0)] + [AddImm(R31, FP, 0)] + [LdpFrame] + [Ret] == [Movz(0, 0), AddImm(R31, FP, 0), LdpFrame, Ret];
  }

  lemma FuncSteps(f: Func, k: Ctx, p: Program, pos: int)
    ensures var pb := pos + |HeadCode(f)|;
            var ret := pb + StmtSize(f.body, k) + 1;
            Cat(Cat(Cat(Fresh(1), Ins(HeadCode(f))), StmtUse(f.body, k, p, pb, Exits(0, 0, ret), false, false)), TailUse())
            == FuncUse(f, k, p, pos)
  {
    hide HeadCode, StmtCode, StmtCounts, StmtWf, StmtSize, Zero, Counts.Plus;
    assert [] + HeadCode(f) == HeadCode(f);
    PlusZero(Counts(1, 0, 0));
    PlusZero(Counts(1, 0, 0).Plus(StmtCounts(f.body, p)));
  }

  /** Label and branch tables start afresh with every function. */
  function Afresh(s: Status): Status {
    match s
    case Bad => Bad
    case Silent(spec, _) => Silent(spec, 0)
    case Good(spec, n) => Good(spec, Counts(0, 0, n.calls))
  }

  lemma AfreshGood(s: Status)
    ensures Afresh(s).Good? ==> s.Good? && Size(Afresh(s)) == Size(s)
  {
  }

  lemma BodySize(s: Stmt, k: Ctx, p: Program, pos: int, x: Exits)
    ensures |StmtUse(s, k, p, pos, x, false, false).code| == StmtSize(s, k)
    ensures |CaseAt(s, k, pos)| == |Cases(s)|
  {
  }

  lemma PatchIs(f: Fix, goal: seq<int>)
    ensures f.lab < |goal| ==> PatchWord(f, goal) == WordOf(BranchOf(f.kind, f.cond, goal[f.lab] - f.site))
  {
  }
}
