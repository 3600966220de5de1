/**
 How source states and machine states correspond, and what the short instruction
 sequences of the generator do to a corresponding pair.
 */
module SimBase {
  import opened Common
  import opened Memory
  import opened Isa
  import opened Machine
  import opened Csyntax
  import opened Csemantics
  import opened CodeSpec

  /** A program, its code, the index of each function's first instruction, and their addresses by name. */
  datatype Image = Image(pl: Platform, p: Program, code: Code, entry: seq<int>, names: map<string, U64>)

  ghost predicate CodeAt(code: Code, pc: int, c: Code) {
    0 <= pc && pc + |c| <= |code| && code[pc..pc + |c|] == c
  }

  function CtxOf(im: Image, f: Func): Ctx {
    Ctx(Offsets(f.locals), im.names, im.p.externs, im.p.tick)
  }

  /** The code buffer holds every function where calls expect it. */
  ghost predicate Linked(im: Image) {
    && 0 <= im.p.limit
    && |im.entry| == |im.p.funcs|
    && im.pl.base + 4 * |im.code| < TWO64
    && (forall i :: 0 <= i < |im.p.funcs| ==> FuncPlaced(im, i))
    && (forall name :: name in im.names <==> Find(im.p.funcs, name, 0) >= 0)
    && (forall name :: name in im.names ==>
          im.names[name] == im.pl.base + 4 * im.entry[Find(im.p.funcs, name, 0)])
    && (forall a :: a in im.pl.arity ==> im.pl.arity[a] <= 8 && !(im.pl.base <= a < im.pl.base + 4 * |im.code|))
    && (im.p.tick != 0 ==> im.p.tick in im.pl.arity && im.pl.arity[im.p.tick] == 0)
  }

  ghost predicate FuncPlaced(im: Image, i: int)
    requires 0 <= i < |im.p.funcs| == |im.entry|
  {
    var f := im.p.funcs[i];
    && 0 <= im.entry[i]
    && CodeAt(im.code, im.entry[i], FuncCode(f, CtxOf(im, f), im.entry[i]))
    && FrameSize(f.locals) <= 0xFFF
    && StmtOk(f.body)
  }

  // ---------- what the generator can express ----------

  /** Member offsets fit the immediate field and calls fit the argument registers. */
  predicate ExprOk(e: Expr) {
    match e
    case Num(_) => true
    case StrLit(_) => true
    case VarRef(_, _) => true
    case Assign(d, s) => ExprOk(d) && ExprOk(s)
    case Deref(p, _) => ExprOk(p)
    case Member(o, off, _) => ExprOk(o) && off <= 0xFFF
    case AddrOf(o) => ExprOk(o)
    case Neg(x) => ExprOk(x)
    case Not(x) => ExprOk(x)
    case LogAnd(x, y) => ExprOk(x) && ExprOk(y)
    case LogOr(x, y) => ExprOk(x) && ExprOk(y)
    case Binary(_, x, y) => ExprOk(x) && ExprOk(y)
    case Call(_, args) => ArgsOk(args) && args.Length() <= 8
  }

  predicate ArgsOk(args: Args) {
    match args
    case NoArgs => true
    case Arg(e, rest) => ExprOk(e) && ArgsOk(rest)
  }

  predicate StmtOk(s: Stmt) {
    match s
    case ExprStmt(e) => ExprOk(e)
    case Return(e) => ExprOk(e)
    case If(c, a, b) => ExprOk(c) && StmtOk(a) && (b.Just? ==> StmtOk(b.get))
    case While(c, b) => ExprOk(c) && StmtOk(b)
    case For(i, c, n, b) =>
      (i.Just? ==> StmtOk(i.get)) && (c.Just? ==> ExprOk(c.get)) && (n.Just? ==> ExprOk(n.get)) && StmtOk(b)
    case Switch(c, b) => ExprOk(c) && StmtOk(b)
    case Case(_, i) => StmtOk(i)
    case Break => true
    case Continue => true
    case Block(ss) => StmtsOk(ss)
  }

  predicate StmtsOk(ss: Stmts) {
    match ss
    case Done => true
    case Then(s, rest) => StmtOk(s) && StmtsOk(rest)
  }

  // ---------- the correspondence ----------

  /** Machine memory holds every initialised source byte. */
  ghost predicate Agree(m: Ram, mem: Ram) {
    forall a :: a in m ==> Get(mem, a) == m[a]
  }

  /** Outside the program's own bytes and the free stack below `sp`, nothing changed. */
  ghost predicate Kept(alloc: set<int>, limit: int, sp: int, mem: Ram, mem': Ram) {
    forall a :: a !in alloc && !(limit <= a < sp) ==> Get(mem', a) == Get(mem, a)
  }

  /** The free stack `[limit, sp)` belongs to no variable. */
  ghost predicate Room(limit: int, env: Env, sp: int) {
    && 0 <= limit <= sp < TWO64 && sp % 16 == 0 && 0 <= env.fp < TWO64
    && forall a :: limit <= a < sp ==> a !in env.alloc
  }

  ghost predicate Matches(env: Env, sp: int, m: Ram, t: Trace, s: State) {
    && s.sp == sp && s.regs[FP] == env.fp && s.trace == t
    && m.Keys <= env.alloc && Agree(m, s.mem)
  }

  /** `s'` is reached from `s` and stands for the source state `(m, t)` at `pc`. */
  ghost predicate Lands(im: Image, env: Env, sp: int, s: State, s': State, pc: int, m: Ram, t: Trace) {
    && Reaches(im.pl, im.code, s, s')
    && s'.pc == pc
    && Matches(env, sp, m, t, s')
    && Kept(env.alloc, im.p.limit, sp, s.mem, s'.mem)
  }

  // ---------- composing runs ----------

  lemma Split(code: Code, pc: int, a: Code, b: Code)
    requires CodeAt(code, pc, a + b)
    ensures CodeAt(code, pc, a) && CodeAt(code, pc + |a|, b)
  {
    assert (a + b)[..|a|] == a && (a + b)[|a|..] == b;
    assert code[pc..pc + |a + b|][..|a|] == code[pc..pc + |a|];
    assert code[pc..pc + |a + b|][|a|..] == code[pc + |a|..pc + |a| + |b|];
  }

  lemma At(code: Code, pc: int, c: Code, i: nat)
    requires CodeAt(code, pc, c) && i < |c|
    ensures 0 <= pc + i < |code| && code[pc + i] == c[i]
  {
    assert code[pc + i] == code[pc..pc + |c|][i];
  }

  lemma Chain(im: Image, s: State, s1: State, s2: State)
    requires Reaches(im.pl, im.code, s, s1) && Reaches(im.pl, im.code, s1, s2)
    ensures Reaches(im.pl, im.code, s, s2)
  {
    LeadsThen(Stepper(im.pl, im.code), s, s1, s2);
  }

  lemma One(im: Image, s: State, i: Instr, s1: State)
    requires 0 <= s.pc < |im.code| && im.code[s.pc] == i
    requires Execute(im.pl, i, s) == Some(s1)
    ensures Reaches(im.pl, im.code, s, s1)
  {
    LeadsOne(Stepper(im.pl, im.code), s, s1);
  }

  lemma Zero(im: Image, s: State)
    ensures Reaches(im.pl, im.code, s, s)
  {
    LeadsSelf(Stepper(im.pl, im.code), s);
  }

  lemma KeptThen(alloc: set<int>, limit: int, sp: int, m0: Ram, m1: Ram, m2: Ram)
    requires Kept(alloc, limit, sp, m0, m1) && Kept(alloc, limit, sp, m1, m2)
    ensures Kept(alloc, limit, sp, m0, m2)
  {
  }

  lemma LandsThen(im: Image, env: Env, sp: int, s: State, s1: State, s2: State, pc1: int, pc2: int, m1: Ram, t1: Trace, m2: Ram, t2: Trace)
    requires Lands(im, env, sp, s, s1, pc1, m1, t1) && Lands(im, env, sp, s1, s2, pc2, m2, t2)
    ensures Lands(im, env, sp, s, s2, pc2, m2, t2)
  {
    Chain(im, s, s1, s2);
    KeptThen(env.alloc, im.p.limit, sp, s.mem, s1.mem, s2.mem);
  }

  lemma Stay(im: Image, env: Env, sp: int, s: State, m: Ram, t: Trace)
    requires Matches(env, sp, m, t, s)
    ensures Lands(im, env, sp, s, s, s.pc, m, t)
  {
    Zero(im, s);
  }

  /** A plain register instruction: only x0..x28, the flags and pc change. */
  ghost predicate RegsOnly(s: State, s': State) {
    s'.sp == s.sp && s'.regs[FP] == s.regs[FP] && s'.trace == s.trace && s'.mem == s.mem
  }

  // ---------- constants ----------

  lemma InsertAbove(v: U64, imm: nat, hw: nat)
    requires 1 <= hw < 4 && imm < 0x10000 && v < FieldUnit(hw)
    ensures InsertField(v, imm, hw) == v + imm * FieldUnit(hw)
  {
    assert v / FieldUnit(hw) == 0;
    if hw == 1 {
      assert v + imm * 0x1_0000 < TWO64;
    } else if hw == 2 {
      assert v + imm * 0x1_0000_0000 < TWO64;
    } else {
      assert v + imm * 0x1_0000_0000_0000 < TWO64;
    }
  }

  function Upto(v: U64, n: nat): U64
    requires n < 4
  {
    if n == 0 then v % 0x1_0000
    else if n == 1 then v % 0x1_0000_0000
    else if n == 2 then v % 0x1_0000_0000_0000
    else v
  }

  lemma InsertNext(v: U64, hw: nat)
    requires 1 <= hw < 4
    ensures InsertField(Upto(v, hw - 1), Field(v, hw), hw) == Upto(v, hw)
  {
    if hw == 1 {
      TwoFields(v);
    } else if hw == 2 {
      ThreeFields(v);
    } else {
      AllFields(v);
    }
    InsertAbove(Upto(v, hw - 1), Field(v, hw), hw);
  }

  lemma TwoFields(v: U64)
    ensures v % 0x1_0000 + v / 0x1_0000 % 0x1_0000 * 0x1_0000 == v % 0x1_0000_0000
  {
  }

  lemma ThreeFields(v: U64)
    ensures v % 0x1_0000_0000 + v / 0x1_0000_0000 % 0x1_0000 * 0x1_0000_0000 == v % 0x1_0000_0000_0000
  {
  }

  lemma AllFields(v: U64)
    ensures v % 0x1_0000_0000_0000 + v / 0x1_0000_0000_0000 % 0x1_0000 * 0x1_0000_0000_0000 == v
  {
  }

  lemma MovzRuns(im: Image, s: State, r: nat, imm: nat) returns (s': State)
    requires r < 29 && 0 <= s.pc < |im.code| && im.code[s.pc] == Movz(r, imm) && imm < 0x10000
    ensures Reaches(im.pl, im.code, s, s')
    ensures s' == s.(regs := s.regs[r := imm], pc := s.pc + 1)
  {
    s' := s.(regs := s.regs[r := imm], pc := s.pc + 1);
    One(im, s, Movz(r, imm), s');
  }

  lemma MovkRuns(im: Image, s0: State, s: State, r: nat, v: U64, hw: nat) returns (s': State)
    requires r < 29 && 1 <= hw < 4
    requires s == s0.(regs := s0.regs[r := Upto(v, hw - 1)], pc := s0.pc + hw)
    requires 0 <= s.pc < |im.code| && im.code[s.pc] == Movk(r, Field(v, hw), hw)
    requires Reaches(im.pl, im.code, s0, s)
    ensures Reaches(im.pl, im.code, s0, s')
    ensures s' == s0.(regs := s0.regs[r := Upto(v, hw)], pc := s0.pc + hw + 1)
  {
    InsertNext(v, hw);
    s' := s0.(regs := s0.regs[r := Upto(v, hw)], pc := s0.pc + hw + 1);
    assert s'.regs == s.regs[r := Upto(v, hw)];
    One(im, s, Movk(r, Field(v, hw), hw), s');
    Chain(im, s0, s, s');
  }

  /** MOVZ and three MOVKs load any 64-bit constant. */
  lemma LoadImmRuns(im: Image, s: State, r: nat, v: U64) returns (s': State)
    requires r < 29 && CodeAt(im.code, s.pc, LoadImm(r, v))
    ensures Reaches(im.pl, im.code, s, s')
    ensures s' == s.(regs := s.regs[r := v], pc := s.pc + 4)
  {
    var c := LoadImm(r, v);
    At(im.code, s.pc, c, 0);
    At(im.code, s.pc, c, 1);
    At(im.code, s.pc, c, 2);
    At(im.code, s.pc, c, 3);
    s' := MovzRuns(im, s, r, Field(v, 0));
    s' := MovkRuns(im, s, s', r, v, 1);
    s' := MovkRuns(im, s, s', r, v, 2);
    s' := MovkRuns(im, s, s', r, v, 3);
  }

  // ---------- temporaries ----------

  lemma PushSim(im: Image, env: Env, sp: int, m: Ram, t: Trace, s: State) returns (s': State)
    requires Room(im.p.limit, env, sp) && Matches(env, sp, m, t, s) && sp - 16 >= im.p.limit
    requires 0 <= s.pc < |im.code| && im.code[s.pc] == Push
    ensures Room(im.p.limit, env, sp - 16)
    ensures Reaches(im.pl, im.code, s, s') && s'.pc == s.pc + 1 && s'.regs == s.regs
    ensures Matches(env, sp - 16, m, t, s')
    ensures Kept(env.alloc, im.p.limit, sp, s.mem, s'.mem)
    ensures LoadWord(s'.mem, sp - 16) == s.regs[0]
  {
    s' := Next(s).(sp := s.sp - 16, mem := StoreWord(s.mem, s.sp - 16, X(s, 0)));
    One(im, s, Push, s');
    LoadStoreWord(s.mem, sp - 16, s.regs[0]);
  }

  /** A pending temporary survives whatever runs below it. */
  lemma TempKept(limit: int, env: Env, sp: int, mem: Ram, mem': Ram)
    requires Room(limit, env, sp) && sp - 16 >= limit
    requires Kept(env.alloc, limit, sp - 16, mem, mem')
    ensures LoadWord(mem', sp - 16) == LoadWord(mem, sp - 16)
    ensures Kept(env.alloc, limit, sp, mem, mem')
  {
    LoadNAgree(mem, mem', sp - 16, 8);
  }

  lemma PopSim(im: Image, env: Env, sp: int, m: Ram, t: Trace, s: State, r: nat, v: U64) returns (s': State)
    requires Room(im.p.limit, env, sp) && sp - 16 >= im.p.limit
    requires Matches(env, sp - 16, m, t, s) && LoadWord(s.mem, sp - 16) == v
    requires 0 <= s.pc < |im.code| && im.code[s.pc] == Pop(r) && r < 29
    ensures Reaches(im.pl, im.code, s, s')
    ensures s' == s.(regs := s.regs[r := v], pc := s.pc + 1, sp := sp)
    ensures Matches(env, sp, m, t, s')
  {
    hide Reaches, LoadWord, Agree;
    s' := s.(regs := s.regs[r := v], pc := s.pc + 1, sp := sp);
    One(im, s, Pop(r), s');
  }
}
