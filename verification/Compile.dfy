/**
 Whole programs: the functions one after the other, calls resolved to their addresses,
 and what running the result means.
 */
module Compile {
  import opened Common
  import opened Memory
  import opened Isa
  import opened Machine
  import opened Csyntax
  import opened Csemantics
  import opened CodeSpec
  import opened SimBase
  import opened Simulation

  // ---------- sizes do not depend on addresses ----------

  lemma {:induction false} SameAddressSize(e: Expr, k: Ctx, k': Ctx)
    requires k.offs == k'.offs
    ensures |AddressCode(e, k)| == |AddressCode(e, k')|
    decreases e, 0
  {
    match e
    case Deref(p, _) => SameExprSize(p, k, k');
    case Member(o, _, _) => SameAddressSize(o, k, k');
    case _ =>
  }

  lemma {:induction false} SameExprSize(e: Expr, k: Ctx, k': Ctx)
    requires k.offs == k'.offs
    ensures |ExprCode(e, k)| == |ExprCode(e, k')|
    decreases e, 1
  {
    hide LoadImm, OpCode, LoadCode, StoreCode, PopArgs;
    match e
    case Num(_) =>
    case StrLit(_) =>
    case VarRef(_, _) => SameAddressSize(e, k, k');
    case Assign(d, s) => SameAddressSize(d, k, k'); SameExprSize(s, k, k');
    case Deref(p, _) => SameExprSize(p, k, k');
    case Member(_, _, _) => SameAddressSize(e, k, k');
    case AddrOf(o) => SameAddressSize(o, k, k');
    case Neg(x) => SameExprSize(x, k, k');
    case Not(x) => SameExprSize(x, k, k');
    case LogAnd(x, y) => SameExprSize(x, k, k'); SameExprSize(y, k, k');
    case LogOr(x, y) => SameExprSize(x, k, k'); SameExprSize(y, k, k');
    case Binary(_, x, y) => SameExprSize(x, k, k'); SameExprSize(y, k, k');
    case Call(_, args) => SameArgsSize(args, k, k');
  }

  lemma {:induction false} SameArgsSize(args: Args, k: Ctx, k': Ctx)
    requires k.offs == k'.offs
    ensures |ArgsCode(args, k)| == |ArgsCode(args, k')|
    decreases args, 0
  {
    if args.Arg? {
      SameExprSize(args.head, k, k');
      SameArgsSize(args.tail, k, k');
    }
  }

  lemma {:induction false} SameStmtSize(s: Stmt, k: Ctx, k': Ctx)
    requires k.offs == k'.offs && k.tick == k'.tick
    ensures StmtSize(s, k) == StmtSize(s, k')
  {
    hide ExprCode;
    match s
    case ExprStmt(e) => SameExprSize(e, k, k');
    case Return(e) => SameExprSize(e, k, k');
    case If(c, a, b) =>
      SameExprSize(c, k, k');
      SameStmtSize(a, k, k');
      if b.Just? { SameStmtSize(b.get, k, k'); }
    case While(c, b) => SameExprSize(c, k, k'); SameStmtSize(b, k, k');
    case For(i, c, n, b) =>
      if i.Just? { SameStmtSize(i.get, k, k'); }
      if c.Just? { SameExprSize(c.get, k, k'); }
      if n.Just? { SameExprSize(n.get, k, k'); }
      SameStmtSize(b, k, k');
    case Switch(c, b) => SameExprSize(c, k, k'); SameStmtSize(b, k, k');
    case Case(_, i) => SameStmtSize(i, k, k');
    case Break =>
    case Continue =>
    case Block(ss) => SameListSize(ss, k, k');
  }

  lemma {:induction false} SameListSize(ss: Stmts, k: Ctx, k': Ctx)
    requires k.offs == k'.offs && k.tick == k'.tick
    ensures ListSize(ss, k) == ListSize(ss, k')
  {
    if ss.Then? {
      SameStmtSize(ss.first, k, k');
      SameListSize(ss.rest, k, k');
    }
  }

  // ---------- layout ----------

  /** Size of a function, before any address is known. */
  function SizeOf(p: Program, f: Func): nat {
    FuncSize(f, Ctx(Offsets(f.locals), map[], map[], p.tick))
  }

  /** Index of the first instruction of function `i`; of the end of the code for `i == |funcs|`. */
  function EntryIndex(p: Program, i: nat): nat
    requires i <= |p.funcs|
  {
    if i == 0 then 0 else EntryIndex(p, i - 1) + SizeOf(p, p.funcs[i - 1])
  }

  function Entries(p: Program): (r: seq<int>)
    ensures |r| == |p.funcs|
    ensures forall i :: 0 <= i < |r| ==> r[i] == EntryIndex(p, i)
  {
    seq(|p.funcs|, i requires 0 <= i < |p.funcs| => EntryIndex(p, i))
  }

  function AddressOf(pl: Platform, p: Program, i: nat): U64
    requires i <= |p.funcs|
  {
    Wrap(pl.base + 4 * EntryIndex(p, i))
  }

  function Addresses(pl: Platform, p: Program): (r: seq<U64>)
    ensures |r| == |p.funcs|
    ensures forall i :: 0 <= i < |r| ==> r[i] == AddressOf(pl, p, i)
  {
    seq(|p.funcs|, i requires 0 <= i < |p.funcs| => AddressOf(pl, p, i))
  }

  /** Addresses by name from function `i` on; of two functions with one name the first counts. */
  function NamesFrom(pl: Platform, p: Program, i: nat): (r: map<string, U64>)
    requires i <= |p.funcs|
    ensures forall n :: n in r <==> Find(p.funcs, n, i) >= 0
    ensures forall n :: n in r ==> r[n] == AddressOf(pl, p, Find(p.funcs, n, i))
    decreases |p.funcs| - i
  {
    if i == |p.funcs| then map[]
    else NamesFrom(pl, p, i + 1)[p.funcs[i].name := AddressOf(pl, p, i)]
  }

  function Names(pl: Platform, p: Program): map<string, U64> {
    NamesFrom(pl, p, 0)
  }

  /** A call of one of the program's own functions goes to that function. */
  lemma OwnTarget(pl: Platform, p: Program, k: Ctx, name: string)
    requires k.entry == Names(pl, p) && Find(p.funcs, name, 0) >= 0
    ensures CallTarget(name, k) == Addresses(pl, p)[Find(p.funcs, name, 0)]
  {
    hide AddressOf;
  }

  lemma KernelTarget(pl: Platform, p: Program, k: Ctx, name: string)
    requires k.entry == Names(pl, p) && k.externs == p.externs && Find(p.funcs, name, 0) < 0 && name in p.externs
    ensures CallTarget(name, k) == p.externs[name]
  {
    hide AddressOf;
  }

  function CtxFor(pl: Platform, p: Program, f: Func): Ctx {
    Ctx(Offsets(f.locals), Names(pl, p), p.externs, p.tick)
  }

  /** The code of function `i` and of those after it. */
  function CodeFrom(pl: Platform, p: Program, i: nat): (c: Code)
    requires i <= |p.funcs|
    ensures |c| == EntryIndex(p, |p.funcs|) - EntryIndex(p, i)
    decreases |p.funcs| - i
  {
    if i == |p.funcs| then []
    else
      var f := p.funcs[i];
      SameStmtSize(f.body, CtxFor(pl, p, f), Ctx(Offsets(f.locals), map[], map[], p.tick));
      FuncCode(f, CtxFor(pl, p, f), EntryIndex(p, i)) + CodeFrom(pl, p, i + 1)
  }

  function Build(pl: Platform, p: Program): Image {
    Image(pl, p, CodeFrom(pl, p, 0), Entries(p), Names(pl, p))
  }

  function FuncWords(pl: Platform, p: Program, i: nat): Code
    requires i < |p.funcs|
  {
    FuncCode(p.funcs[i], CtxFor(pl, p, p.funcs[i]), EntryIndex(p, i))
  }

  lemma CodeStep(pl: Platform, p: Program, i: nat)
    requires i < |p.funcs|
    ensures CodeFrom(pl, p, i) == FuncWords(pl, p, i) + CodeFrom(pl, p, i + 1)
    ensures |FuncWords(pl, p, i)| == EntryIndex(p, i + 1) - EntryIndex(p, i)
  {
    hide Names;
    var f := p.funcs[i];
    SameStmtSize(f.body, CtxFor(pl, p, f), Ctx(Offsets(f.locals), map[], map[], p.tick));
  }

  lemma {:induction false} FuncAt(pl: Platform, p: Program, i: nat, j: nat)
    requires i <= j < |p.funcs|
    ensures CodeAt(CodeFrom(pl, p, i), EntryIndex(p, j) - EntryIndex(p, i), FuncWords(pl, p, j))
    decreases |p.funcs| - i
  {
    hide FuncWords, CodeFrom, CodeAt, EntryIndex;
    CodeStep(pl, p, i);
    if i == j {
      AtFront(FuncWords(pl, p, i), CodeFrom(pl, p, i + 1));
    } else {
      FuncAt(pl, p, i + 1, j);
      Shifted(FuncWords(pl, p, i), CodeFrom(pl, p, i + 1), EntryIndex(p, j) - EntryIndex(p, i + 1), FuncWords(pl, p, j));
    }
  }

  lemma AtFront(a: Code, b: Code)
    ensures CodeAt(a + b, 0, a)
  {
  }

  lemma Shifted(a: Code, b: Code, pc: int, c: Code)
    requires CodeAt(b, pc, c)
    ensures CodeAt(a + b, |a| + pc, c)
  {
    assert (a + b)[|a| + pc..|a| + pc + |c|] == b[pc..pc + |c|];
  }

  /** What a program and its surroundings must satisfy for the code to be right. */
  ghost predicate Compilable(pl: Platform, p: Program) {
    && 0 <= p.limit
    && pl.base + 4 * EntryIndex(p, |p.funcs|) < TWO64
    && (forall i :: 0 <= i < |p.funcs| ==> FrameSize(p.funcs[i].locals) <= 0xFFF && StmtOk(p.funcs[i].body))
    && (forall a :: a in pl.arity ==> pl.arity[a] <= 8 && !(pl.base <= a < pl.base + 4 * EntryIndex(p, |p.funcs|)))
    && (p.tick != 0 ==> p.tick in pl.arity && pl.arity[p.tick] == 0)
  }

  lemma {:induction false} EntriesGrow(p: Program, i: nat, j: nat)
    requires i <= j <= |p.funcs|
    ensures EntryIndex(p, i) <= EntryIndex(p, j)
    decreases j
  {
    hide SizeOf;
    if i < j {
      EntriesGrow(p, i, j - 1);
    }
  }

  lemma PlacedByBuild(pl: Platform, p: Program, i: nat)
    requires Compilable(pl, p) && i < |p.funcs|
    ensures FuncPlaced(Build(pl, p), i)
  {
    hide CodeFrom, EntryIndex, FuncCode, CodeAt, Names;
    FuncAt(pl, p, 0, i);
    assert EntryIndex(p, 0) == 0 by { EntryZero(p); }
    assert CtxOf(Build(pl, p), p.funcs[i]) == CtxFor(pl, p, p.funcs[i]);
  }

  lemma EntryZero(p: Program)
    ensures EntryIndex(p, 0) == 0
  {
  }

  lemma NamesResolve(pl: Platform, p: Program, n: string)
    requires Compilable(pl, p) && n in Names(pl, p)
    ensures Find(p.funcs, n, 0) >= 0
    ensures Names(pl, p)[n] == pl.base + 4 * EntryIndex(p, Find(p.funcs, n, 0))
  {
    hide EntryIndex;
    EntriesGrow(p, Find(p.funcs, n, 0), |p.funcs|);
  }

  lemma BuildLinked(pl: Platform, p: Program)
    requires Compilable(pl, p)
    ensures Linked(Build(pl, p))
  {
    hide EntryIndex, FuncPlaced, CodeFrom, StmtOk, FrameSize, Find;
    var im := Build(pl, p);
    EntryZero(p);
    forall i | 0 <= i < |p.funcs| ensures FuncPlaced(im, i) {
      PlacedByBuild(pl, p, i);
    }
    forall n | n in im.names ensures im.names[n] == pl.base + 4 * im.entry[Find(p.funcs, n, 0)] {
      NamesResolve(pl, p, n);
    }
  }

  lemma Fetched(im: Image, words: seq<Word32>, s: State, s': State) returns (n: nat)
    requires Encodes(words, im.code) && Reaches(im.pl, im.code, s, s')
    ensures Iterate(FetchStepper(im.pl, words), s, n) == Some(s')
  {
    hide Encodes;
    n :| Iterate(Stepper(im.pl, im.code), s, n) == Some(s');
    FetchRunIsRun(im.pl, words, im.code, s, n);
  }

  /**
   Semantic preservation for whole programs: if calling function `j` at stack depth `sp`
   means returning `v` with memory `m'` and kernel calls `t'`, then the machine started at
   that function's first word comes back to the caller with `v` in x0, the same kernel calls
   in the same order, the same bytes in the program's memory, the caller's SP and frame
   pointer, and every other byte outside the free stack unchanged.
   */
  lemma CompiledCallIsCorrect(pl: Platform, p: Program, words: seq<Word32>, j: nat, vals: seq<U64>, env: Env, sp: int, m: Ram, t: Trace, fuel: nat, s: State)
    returns (n: nat, s': State)
    requires Compilable(pl, p) && Encodes(words, Build(pl, p).code)
    requires j < |p.funcs| && |vals| <= 8
    requires Room(p.limit, env, sp) && Matches(env, sp, m, t, s)
    requires s.pc == EntryIndex(p, j) && (s.regs[LR] - pl.base) % 4 == 0
    requires forall i :: 0 <= i < |vals| ==> s.regs[i] == vals[i]
    requires Activate(pl, p, p.funcs[j], vals, env.alloc, sp, m, t, fuel).Ok?
    ensures Iterate(FetchStepper(pl, words), s, n) == Some(s')
    ensures var r := Activate(pl, p, p.funcs[j], vals, env.alloc, sp, m, t, fuel);
            && s'.regs[0] == r.v && s'.trace == r.t
            && (forall a :: a in r.m ==> Get(s'.mem, a) == r.m[a])
            && s'.sp == sp && s'.regs[FP] == env.fp && s'.pc == (s.regs[LR] - pl.base) / 4
            && forall a :: a !in env.alloc && !(p.limit <= a < sp) ==> Get(s'.mem, a) == Get(s.mem, a)
  {
    hide Activate, Linked, Encodes, Compilable, Reaches, CodeFrom, EntryIndex, Names, Iterate, Room;
    var im := Build(pl, p);
    BuildLinked(pl, p);
    s' := ActivateSim(im, j, vals, env, sp, m, t, fuel, s);
    n := Fetched(im, words, s, s');
  }
}
