/**
 A program at the limit on frames: whether a variable keeps its value depends on the size of an
 array that nobody touches.
 */
module BigFrame {
  import opened Common
  import opened Memory
  import opened Isa
  import opened Machine
  import opened Csyntax
  import opened Csemantics
  import opened CodeSpec
  import opened SimBase
  import opened SimSteps
  import opened SimCalls
  import opened Simulation
  import opened Compile
  import opened Budget
  import opened Codegen

  /** `main() { char a[n]; int w; int z; w = v; return w + 0; }` */
  function Keeper(n: nat, v: U64): Func {
    Func("main", Prepended([Array(Char, n), Int, Int]), [], Block(Body(v)))
  }

  /** A declaration without an initialiser is an empty block. */
  function Body(v: U64): Stmts {
    var none := Block(Done);
    Then(none, Then(none, Then(none, Then(ExprStmt(Assign(W(), Num(v))), Then(Return(Sum()), Done)))))
  }

  function W(): Expr {
    VarRef(Local(1), Int)
  }

  function Sum(): Expr {
    Binary(Add, W(), Num(0))
  }

  function OnlyKeeper(n: nat, v: U64, limit: int): Program {
    Program([Keeper(n, v)], map[], 0, limit)
  }

  /** The list is z, w, a: w lies 16 bytes below the frame pointer, the array below that. */
  lemma Layout(n: nat, v: U64)
    ensures var f := Keeper(n, v);
            && f.locals == [Int, Int, Array(Char, n)] && |Offsets(f.locals)| == 3 && Offsets(f.locals)[1] == 16
            && |ParamSlots(f)| == 0 && n + 16 <= FrameSize(f.locals) && (FrameSize(f.locals) <= 0xFFF <==> n <= 4064)
  {
    var ls := [Int, Int, Array(Char, n)];
    assert Keeper(n, v).locals == ls;
    assert Offset(ls, 0) == 0;
    assert Offset(ls, 1) == 8;
    assert Offset(ls, 2) == 16;
    assert ls[2].Size() == n;
    assert Offset(ls, 3) == AlignUp(16 + n, 8);
  }

  // ---------- what the source says ----------

  /** The assignment stores the word in w's slot. */
  lemma AssignIs(pl: Platform, p: Program, env: Env, sp: int, m: Ram, t: Trace, v: U64)
    requires |env.offs| == 3 && env.offs[1] == 16 && 16 <= env.fp < TWO64 && p.limit <= sp - 16
    requires Covers(env.alloc, env.fp - 16, 8)
    ensures Eval(pl, p, Assign(W(), Num(v)), env, sp, m, t, 0) == Ok(v, StoreWord(m, env.fp - 16, v), t)
  {
    hide StoreWord;
    assert Address(pl, p, W(), env, sp, m, t, 0) == Ok(env.fp - 16, m, t);
    assert Eval(pl, p, Num(v), env, sp - 16, m, t, 0) == Ok(v, m, t);
    assert Write(Int, env.fp - 16, v, m, env.alloc) == Some(StoreWord(m, env.fp - 16, v));
  }

  /** The sum is the word in w's slot. */
  lemma SumIs(pl: Platform, p: Program, env: Env, sp: int, m: Ram, t: Trace, v: U64)
    requires |env.offs| == 3 && env.offs[1] == 16 && 16 <= env.fp < TWO64 && p.limit <= sp - 16
    requires Covers(m.Keys, env.fp - 16, 8) && LoadWord(m, env.fp - 16) == v
    ensures Eval(pl, p, Sum(), env, sp, m, t, 0) == Ok(v, m, t)
  {
    hide LoadWord;
    assert Eval(pl, p, Num(0), env, sp, m, t, 0) == Ok(0, m, t);
    assert Address(pl, p, W(), env, sp - 16, m, t, 0) == Ok(env.fp - 16, m, t);
    assert Eval(pl, p, W(), env, sp - 16, m, t, 0) == Ok(v, m, t);
    assert Apply(Add, v, 0) == v;
  }

  lemma BodyIs(pl: Platform, p: Program, env: Env, sp: int, m: Ram, t: Trace, v: U64)
    requires |env.offs| == 3 && env.offs[1] == 16 && 16 <= env.fp < TWO64 && p.limit <= sp - 16
    requires Covers(env.alloc, env.fp - 16, 8)
    ensures Exec(pl, p, Block(Body(v)), -1, env, sp, m, t, 0) == Ok(Returned(v), StoreWord(m, env.fp - 16, v), t)
  {
    hide Eval, StoreWord, LoadWord;
    var m1 := StoreWord(m, env.fp - 16, v);
    StoredWord(m, env.fp - 16, v);
    AssignIs(pl, p, env, sp, m, t, v);
    SumIs(pl, p, env, sp, m1, t, v);
    var last := Then(Return(Sum()), Done);
    assert ExecList(pl, p, last, -1, env, sp, m1, t, 0) == Ok(Returned(v), m1, t);
    var both := Then(ExprStmt(Assign(W(), Num(v))), last);
    assert ExecList(pl, p, both, -1, env, sp, m, t, 0) == Ok(Returned(v), m1, t);
    var none := Block(Done);
    assert Exec(pl, p, none, -1, env, sp, m, t, 0) == Ok(Normal, m, t);
    assert ExecList(pl, p, Then(none, both), -1, env, sp, m, t, 0) == Ok(Returned(v), m1, t);
    assert ExecList(pl, p, Then(none, Then(none, both)), -1, env, sp, m, t, 0) == Ok(Returned(v), m1, t);
    assert ExecList(pl, p, Body(v), -1, env, sp, m, t, 0) == Ok(Returned(v), m1, t);
  }

  lemma SourceReturnsIt(pl: Platform, n: nat, v: U64, limit: int, alloc: set<int>, sp: int, m: Ram, t: Trace)
    requires 0 <= limit <= sp - 32 - FrameSize(Keeper(n, v).locals) && sp < TWO64
    ensures var r := Activate(pl, OnlyKeeper(n, v, limit), Keeper(n, v), [], alloc, sp, m, t, 0);
            r.Ok? && r.v == v
  {
    hide Exec, StoreWord, FrameSize, Offsets, ParamSlots, Body;
    var f, p, fp := Keeper(n, v), OnlyKeeper(n, v, limit), sp - 16;
    var size := FrameSize(f.locals);
    var inner := alloc + Range(fp - size, fp);
    Layout(n, v);
    assert Spill(ParamSlots(f), fp, inner, [], m, 0) == Some(m);
    BodyIs(pl, p, Env(fp, Offsets(f.locals), inner), fp - size, m, t, v);
  }

  lemma StoredWord(m: Ram, a: int, v: U64)
    ensures Covers(StoreWord(m, a, v).Keys, a, 8) && LoadWord(StoreWord(m, a, v), a) == v
    ensures forall b :: b >= a + 8 ==> Get(StoreWord(m, a, v), b) == Get(m, b)
  {
    LoadStoreWord(m, a, v);
  }

  // ---------- what the code does ----------

  /** The prologue with a frame over 4095 bytes: SP stays at the frame pointer. */
  lemma HeadRuns(im: Image, n: nat, v: U64, s: State) returns (s': State)
    requires n > 4064 && FrameSize(Keeper(n, v).locals) + 32 <= s.sp < TWO64 && s.sp % 16 == 0
    requires CodeAt(im.code, s.pc, HeadCode(Keeper(n, v)))
    ensures Reaches(im.pl, im.code, s, s') && s'.pc == s.pc + |HeadCode(Keeper(n, v))|
    ensures s'.sp == s'.regs[FP] == s.sp - 16
    ensures Saved(s.sp, s.regs[FP], s.regs[LR], s'.mem)
  {
    hide Reaches, CodeAt, StoreWord, LoadWord, ReserveCode, ParamSlots, FrameSize, Offsets;
    var f := Keeper(n, v);
    var frame := FrameSize(f.locals);
    Layout(n, v);
    assert SpillCode(ParamSlots(f), 0) == [];
    Split(im.code, s.pc, [StpFrame, AddImm(FP, R31, 0)] + ReserveCode(frame), SpillCode(ParamSlots(f), 0));
    Split(im.code, s.pc, [StpFrame, AddImm(FP, R31, 0)], ReserveCode(frame));
    SavedPair(s.mem, s.sp, s.regs[FP], s.regs[LR]);
    var s1 := SaveSim(im, s);
    s' := BigFrameNotReserved(im, s1, frame);
    Chain(im, s, s1, s');
  }

  /** The assignment, its address pushed into w's slot and popped again. */
  lemma AssignRuns(im: Image, k: Ctx, v: U64, s: State) returns (s': State)
    requires |k.offs| == 3 && k.offs[1] == 16 && CodeAt(im.code, s.pc, ExprCode(Assign(W(), Num(v)), k))
    requires s.sp == s.regs[FP] && 16 <= s.sp < TWO64 && s.sp % 16 == 0
    ensures Reaches(im.pl, im.code, s, s') && s'.pc == s.pc + |ExprCode(Assign(W(), Num(v)), k)|
    ensures s'.sp == s.sp && s'.regs[FP] == s.regs[FP]
    ensures forall a :: a >= s.sp ==> Get(s'.mem, a) == Get(s.mem, a)
  {
    hide Reaches, CodeAt, LoadImm, StoreWord, LoadWord, SlotAddress, Execute, ExprCode;
    AssignShape(k, v);
    TwoPart(im.code, s.pc, SlotAddress(0, 16), LoadImm(0, v), [Str(0, 1)]);
    var s1 := SlotSim(im, s, 0, 16);
    var s2 := PushRuns(im, s1);
    Chain(im, s, s1, s2);
    var s3 := LoadImmRuns(im, s2, 0, v);
    Chain(im, s, s2, s3);
    At(im.code, s3.pc + 1, [Str(0, 1)], 0);
    s' := PopStoreRuns(im, s3);
    Chain(im, s, s3, s');
  }

  lemma AssignShape(k: Ctx, v: U64)
    requires |k.offs| == 3 && k.offs[1] == 16
    ensures ExprCode(Assign(W(), Num(v)), k) == SlotAddress(0, 16) + [Push] + LoadImm(0, v) + [Pop(1)] + [Str(0, 1)]
  {
    hide LoadImm, SlotAddress;
    assert ExprCode(Num(v), k) == LoadImm(0, v);
    assert AddressCode(W(), k) == SlotAddress(0, 16);
    assert StoreCode(Int) == [Str(0, 1)];
  }

  lemma PopStoreRuns(im: Image, s: State) returns (s': State)
    requires 0 <= s.pc && s.pc + 1 < |im.code| && im.code[s.pc] == Pop(1) && im.code[s.pc + 1] == Str(0, 1)
    requires s.sp % 16 == 0 && LoadWord(s.mem, s.sp) == s.sp
    ensures Reaches(im.pl, im.code, s, s') && s'.pc == s.pc + 2 && s'.sp == s.sp + 16 && s'.regs[FP] == s.regs[FP]
    ensures forall a :: a >= s.sp + 8 ==> Get(s'.mem, a) == Get(s.mem, a)
  {
    hide Reaches, LoadWord, StoreWord;
    var s1 := s.(regs := s.regs[1 := s.sp], pc := s.pc + 1, sp := s.sp + 16);
    One(im, s, Pop(1), s1);
    s' := Next(s1).(mem := StoreWord(s.mem, s.sp, s.regs[0]));
    One(im, s1, Str(0, 1), s');
    Chain(im, s, s1, s');
    StoredWord(s.mem, s.sp, s.regs[0]);
  }

  /** The pushed 0 lands in w's slot before w is loaded from it. */
  lemma SumRuns(im: Image, k: Ctx, s: State) returns (s': State)
    requires |k.offs| == 3 && k.offs[1] == 16 && CodeAt(im.code, s.pc, ExprCode(Sum(), k))
    requires s.sp == s.regs[FP] && 16 <= s.sp < TWO64 && s.sp % 16 == 0
    ensures Reaches(im.pl, im.code, s, s') && s'.pc == s.pc + |ExprCode(Sum(), k)|
    ensures s'.regs[0] == 0 && s'.sp == s.sp && s'.regs[FP] == s.regs[FP]
    ensures forall a :: a >= s.sp ==> Get(s'.mem, a) == Get(s.mem, a)
  {
    hide Reaches, CodeAt, LoadImm, StoreWord, LoadWord, SlotAddress, Execute, ExprCode;
    var cy, cx := LoadImm(0, 0), SlotAddress(0, 16) + [Ldr(0, 0)];
    SumCode(k);
    TwoPart(im.code, s.pc, cy, cx, [AddReg(0, 0, 1)]);
    var s2 := ZeroPushed(im, s);
    Split(im.code, s2.pc, SlotAddress(0, 16), [Ldr(0, 0)]);
    var s3 := SlotSim(im, s2, 0, 16);
    Chain(im, s, s2, s3);
    At(im.code, s3.pc, [Ldr(0, 0)], 0);
    var s4 := LoadRuns(im, s3);
    Chain(im, s, s3, s4);
    At(im.code, s4.pc + 1, [AddReg(0, 0, 1)], 0);
    s' := PopAddRuns(im, s4);
    Chain(im, s, s4, s');
  }

  lemma ZeroPushed(im: Image, s: State) returns (s': State)
    requires CodeAt(im.code, s.pc, LoadImm(0, 0)) && 0 <= s.pc + 4 < |im.code| && im.code[s.pc + 4] == Push
    requires 16 <= s.sp < TWO64 && s.sp % 16 == 0
    ensures Reaches(im.pl, im.code, s, s') && s'.pc == s.pc + 5 && s'.sp == s.sp - 16 && s'.regs[FP] == s.regs[FP]
    ensures LoadWord(s'.mem, s.sp - 16) == 0
    ensures forall a :: a >= s.sp ==> Get(s'.mem, a) == Get(s.mem, a)
  {
    hide Reaches, CodeAt, LoadImm, StoreWord, LoadWord, Execute;
    var s1 := LoadImmRuns(im, s, 0, 0);
    s' := PushRuns(im, s1);
    Chain(im, s, s1, s');
  }

  lemma PopAddRuns(im: Image, s: State) returns (s': State)
    requires 0 <= s.pc && s.pc + 1 < |im.code| && im.code[s.pc] == Pop(1) && im.code[s.pc + 1] == AddReg(0, 0, 1)
    requires s.sp % 16 == 0 && s.regs[0] == 0 && LoadWord(s.mem, s.sp) == 0
    ensures Reaches(im.pl, im.code, s, s') && s' == s.(regs := s.regs[1 := 0], pc := s.pc + 2, sp := s.sp + 16)
  {
    hide Reaches, LoadWord;
    var s1 := s.(regs := s.regs[1 := 0], pc := s.pc + 1, sp := s.sp + 16);
    One(im, s, Pop(1), s1);
    s' := s1.(pc := s.pc + 2);
    assert s1.regs[0 := 0] == s1.regs;
    One(im, s1, AddReg(0, 0, 1), s');
    Chain(im, s, s1, s');
  }

  lemma LoadRuns(im: Image, s: State) returns (s': State)
    requires 0 <= s.pc < |im.code| && im.code[s.pc] == Ldr(0, 0)
    ensures Reaches(im.pl, im.code, s, s') && s' == s.(regs := s.regs[0 := LoadWord(s.mem, s.regs[0])], pc := s.pc + 1)
  {
    hide Reaches, LoadWord;
    s' := s.(regs := s.regs[0 := LoadWord(s.mem, s.regs[0])], pc := s.pc + 1);
    One(im, s, Ldr(0, 0), s');
  }

  lemma SumCode(k: Ctx)
    requires |k.offs| == 3 && k.offs[1] == 16
    ensures ExprCode(Sum(), k) == LoadImm(0, 0) + [Push] + (SlotAddress(0, 16) + [Ldr(0, 0)]) + [Pop(1)] + [AddReg(0, 0, 1)]
  {
    hide LoadImm, SlotAddress;
    assert ExprCode(Num(0), k) == LoadImm(0, 0);
    assert AddressCode(VarRef(Local(1), Int), k) == SlotAddress(0, 16);
    assert LoadCode(Int) == [Ldr(0, 0)];
  }

  lemma PushRuns(im: Image, s: State) returns (s': State)
    requires 0 <= s.pc < |im.code| && im.code[s.pc] == Push && 16 <= s.sp < TWO64 && s.sp % 16 == 0
    ensures Reaches(im.pl, im.code, s, s') && s'.pc == s.pc + 1 && s'.regs == s.regs && s'.sp == s.sp - 16
    ensures LoadWord(s'.mem, s.sp - 16) == s.regs[0]
    ensures forall a :: a >= s.sp ==> Get(s'.mem, a) == Get(s.mem, a)
  {
    hide Reaches, LoadWord, StoreWord;
    s' := Next(s).(sp := s.sp - 16, mem := StoreWord(s.mem, s.sp - 16, X(s, 0)));
    One(im, s, Push, s');
    StoredWord(s.mem, s.sp - 16, s.regs[0]);
  }

  /** The body's code: the assignment, the sum, the way out. */
  lemma BodyShape(k: Ctx, v: U64, pos: int)
    ensures var a, c := ExprCode(Assign(W(), Num(v)), k), ExprCode(Sum(), k);
            && StmtSize(Block(Body(v)), k) == |a| + |c| + 1
            && StmtCode(Block(Body(v)), k, pos, Exits(0, 0, pos + |a| + |c| + 2)) == a + c + [B(2)]
  {
    hide ExprCode;
    var a, c := ExprCode(Assign(W(), Num(v)), k), ExprCode(Sum(), k);
    var x := Exits(0, 0, pos + |a| + |c| + 2);
    var last := Then(Return(Sum()), Done);
    var both := Then(ExprStmt(Assign(W(), Num(v))), last);
    var none := Block(Done);
    assert ListCode(last, k, pos + |a|, x) == c + [B(2)];
    assert ListCode(both, k, pos, x) == a + (c + [B(2)]);
    assert StmtCode(none, k, pos, x) == [];
    assert ListCode(Then(none, both), k, pos, x) == ListCode(both, k, pos, x);
    assert ListCode(Then(none, Then(none, both)), k, pos, x) == ListCode(both, k, pos, x);
    assert ListCode(Body(v), k, pos, x) == a + c + [B(2)];
  }

  /** A call of the compiled function comes back with 0, whatever was assigned. */
  lemma BigFrameReturnsZero(im: Image, k: Ctx, n: nat, v: U64, s: State) returns (s': State)
    requires n > 4064 && FrameSize(Keeper(n, v).locals) + 32 <= s.sp < TWO64 && s.sp % 16 == 0
    requires k.offs == Offsets(Keeper(n, v).locals) && CodeAt(im.code, s.pc, FuncCode(Keeper(n, v), k, s.pc))
    requires (s.regs[LR] - im.pl.base) % 4 == 0
    ensures Reaches(im.pl, im.code, s, s') && s'.pc == (s.regs[LR] - im.pl.base) / 4 && s'.regs[0] == 0
    ensures s'.sp == s.sp && s'.regs[FP] == s.regs[FP]
  {
    hide Reaches, CodeAt, StoreWord, LoadWord, HeadCode, FrameSize, Offsets, ExprCode, FuncCode, StmtCode, StmtSize, Body;
    var f := Keeper(n, v);
    Layout(n, v);
    FuncParts(im.code, f, k, s.pc);
    var s1 := HeadRuns(im, n, v, s);
    var a, c := ExprCode(Assign(W(), Num(v)), k), ExprCode(Sum(), k);
    BodyShape(k, v, s1.pc);
    Split(im.code, s1.pc, a + c, [B(2)]);
    Split(im.code, s1.pc, a, c);
    var s2 := AssignRuns(im, k, v, s1);
    Chain(im, s, s1, s2);
    var s3 := SumRuns(im, k, s2);
    Chain(im, s, s2, s3);
    At(im.code, s3.pc, [B(2)], 0);
    var s4 := s3.(pc := s3.pc + 2);
    One(im, s3, B(2), s4);
    Chain(im, s, s3, s4);
    WordsAgree(s1.mem, s4.mem, s.sp);
    s' := LeaveSim(im, s4, s.regs[LR], s.regs[FP]);
    Chain(im, s, s4, s');
  }

  /** Where the program's code and its surroundings are in order apart from the frame. */
  ghost predicate Placeable(pl: Platform, p: Program) {
    && 0 <= p.limit && pl.base + 4 * EntryIndex(p, |p.funcs|) < TWO64
    && forall a :: a in pl.arity ==> pl.arity[a] <= 8 && !(pl.base <= a < pl.base + 4 * EntryIndex(p, |p.funcs|))
  }

  /**
   The whole program: the source returns what it assigned to w, and so does the code exactly when
   the array, which nobody touches, has at most 4064 bytes; with a larger one it returns 0.
   */
  lemma ValueKeptIffSmall(pl: Platform, n: nat, v: U64, limit: int, env: Env, sp: int, m: Ram, t: Trace, s: State) returns (s': State)
    requires Placeable(pl, OnlyKeeper(n, v, limit)) && limit <= sp - 32 - FrameSize(Keeper(n, v).locals)
    requires Room(limit, env, sp) && Matches(env, sp, m, t, s)
    requires s.pc == 0 && (s.regs[LR] - pl.base) % 4 == 0
    ensures var p := OnlyKeeper(n, v, limit);
            && Activate(pl, p, Keeper(n, v), [], env.alloc, sp, m, t, 0).Ok?
            && Activate(pl, p, Keeper(n, v), [], env.alloc, sp, m, t, 0).v == v
            && Reaches(pl, Build(pl, p).code, s, s') && s'.pc == (s.regs[LR] - pl.base) / 4
            && s'.regs[0] == if n <= 4064 then v else 0
  {
    hide Activate, Reaches, CodeAt, FrameSize, Offsets, CodeFrom, FuncCode, Linked, Agree, FuncWords, Names, Body;
    var f, p := Keeper(n, v), OnlyKeeper(n, v, limit);
    SourceReturnsIt(pl, n, v, limit, env.alloc, sp, m, t);
    Layout(n, v);
    EntryZero(p);
    FuncAt(pl, p, 0, 0);
    if n <= 4064 {
      KeeperOk(n, v);
      BuildLinked(pl, p);
      s' := ActivateSim(Build(pl, p), 0, [], env, sp, m, t, 0, s);
    } else {
      FirstWords(pl, p);
      s' := BigFrameReturnsZero(Build(pl, p), CtxFor(pl, p, f), n, v, s);
    }
  }

  lemma FirstWords(pl: Platform, p: Program)
    requires |p.funcs| == 1
    ensures FuncWords(pl, p, 0) == FuncCode(p.funcs[0], CtxFor(pl, p, p.funcs[0]), 0)
  {
    hide FuncCode, CtxFor;
    EntryZero(p);
  }

  lemma KeeperOk(n: nat, v: U64)
    ensures StmtOk(Keeper(n, v).body)
  {
    var last := Then(Return(Sum()), Done);
    var both := Then(ExprStmt(Assign(W(), Num(v))), last);
    assert ExprOk(Sum()) && ExprOk(Assign(W(), Num(v)));
    assert StmtsOk(last);
    assert StmtsOk(both);
    assert StmtOk(Block(Done));
    assert StmtsOk(Then(Block(Done), both));
    assert StmtsOk(Then(Block(Done), Then(Block(Done), both)));
  }

  // ---------- the generator accepts it ----------

  /** The generator reports success for the program whatever the array, with every fixup recorded. */
  lemma KeeperAccepted(n: nat, v: U64, limit: int)
    requires FrameSize(Keeper(n, v).locals) < TWO64
    ensures var p := OnlyKeeper(n, v, limit);
            Parsed(p) && !Overruns(p) && Accepted(p, BUFFER, 1) && FixupsFit(p, 1) && Find(p.funcs, "main", 0) == 0
  {
    hide SizeOf, StmtWf, StmtCounts, Shaped, Deep, Cases, Body, Takes, Accepted, FixupsFit;
    var p := OnlyKeeper(n, v, limit);
    KeeperFits(n, v, p);
    KeeperSize(n, v, p);
    OneAccepted(p);
  }

  lemma OneAccepted(p: Program)
    requires |p.funcs| == 1 && StmtWf(p.funcs[0].body, p, false, false) && Takes(StmtCounts(p.funcs[0].body, p), 1)
    requires SizeOf(p, p.funcs[0]) <= BUFFER
    ensures Accepted(p, BUFFER, 1) && FixupsFit(p, 1)
  {
    hide SizeOf, StmtWf, StmtCounts;
    assert EntryIndex(p, 1) == EntryIndex(p, 0) + SizeOf(p, p.funcs[0]);
    assert CallsUpTo(p, 1) == CallsUpTo(p, 0) + FuncCounts(p, p.funcs[0]).calls;
  }

  predicate Takes(n: Counts, branches: nat) {
    n.labels == 0 && n.branches == branches && n.calls == 0
  }

  lemma PlusTakes(m: Counts, n: Counts, a: nat, b: nat)
    requires Takes(m, a) && Takes(n, b)
    ensures Takes(m.Plus(n), a + b)
  {
  }

  lemma KeeperFits(n: nat, v: U64, p: Program)
    ensures var b := Block(Body(v));
            StmtWf(b, p, false, false) && Shaped(b) && !Deep(b, 0) && |Cases(b)| == 0 && Takes(StmtCounts(b, p), 1)
  {
    hide ListWf, AllShaped, CasesOf, ListCounts, DeepList;
    var last := Then(Return(Sum()), Done);
    var both := Then(ExprStmt(Assign(W(), Num(v))), last);
    var none := Block(Done);
    LeafFits(v, p);
    OneFits(Return(Sum()), Done, p, 1, 0);
    OneFits(ExprStmt(Assign(W(), Num(v))), last, p, 0, 1);
    OneFits(none, both, p, 0, 1);
    OneFits(none, Then(none, both), p, 0, 1);
    OneFits(none, Then(none, Then(none, both)), p, 0, 1);
  }

  /** A statement in front of a list. */
  lemma OneFits(s: Stmt, rest: Stmts, p: Program, a: nat, b: nat)
    requires StmtWf(s, p, false, false) && Shaped(s) && !Deep(s, 0) && |Cases(s)| == 0 && Takes(StmtCounts(s, p), a)
    requires ListWf(rest, p, false, false) && AllShaped(rest) && !DeepList(rest, 0) && |CasesOf(rest)| == 0 && Takes(ListCounts(rest, p), b)
    ensures var ss := Then(s, rest);
            ListWf(ss, p, false, false) && AllShaped(ss) && !DeepList(ss, 0) && |CasesOf(ss)| == 0 && Takes(ListCounts(ss, p), a + b)
  {
    hide StmtWf, Shaped, Deep, Cases, StmtCounts, Counts.Plus, Takes;
    PlusTakes(StmtCounts(s, p), ListCounts(rest, p), a, b);
  }

  lemma LeafFits(v: U64, p: Program)
    ensures var r, e, none := Return(Sum()), ExprStmt(Assign(W(), Num(v))), Block(Done);
            && StmtWf(r, p, false, false) && Shaped(r) && !Deep(r, 0) && |Cases(r)| == 0 && Takes(StmtCounts(r, p), 1)
            && StmtWf(e, p, false, false) && Shaped(e) && !Deep(e, 0) && |Cases(e)| == 0 && Takes(StmtCounts(e, p), 0)
            && StmtWf(none, p, false, false) && Shaped(none) && !Deep(none, 0) && |Cases(none)| == 0 && Takes(StmtCounts(none, p), 0)
            && ListWf(Done, p, false, false) && AllShaped(Done) && !DeepList(Done, 0) && |CasesOf(Done)| == 0 && Takes(ListCounts(Done, p), 0)
  {
    hide Counts.Plus, Takes;
    NothingTaken(v, p);
    PlusTakes(AddressCounts(W(), p), ExprCounts(Num(v), p), 0, 0);
    assert ExprCounts(Assign(W(), Num(v)), p) == AddressCounts(W(), p).Plus(ExprCounts(Num(v), p));
    PlusTakes(ExprCounts(Num(0), p), ExprCounts(W(), p), 0, 0);
    assert ExprCounts(Sum(), p) == ExprCounts(Num(0), p).Plus(ExprCounts(W(), p));
    PlusTakes(ExprCounts(Sum(), p), Counts(0, 1, 0), 0, 1);
    assert ExprWf(Sum(), p) && ExprWf(Assign(W(), Num(v)), p);
    assert ListCounts(Done, p) == Budget.Zero();
    assert StmtCounts(Block(Done), p) == ListCounts(Done, p);
  }

  lemma NothingTaken(v: U64, p: Program)
    ensures Takes(AddressCounts(W(), p), 0) && Takes(ExprCounts(W(), p), 0) && Takes(ExprCounts(Num(v), p), 0)
    ensures Takes(ExprCounts(Num(0), p), 0) && Takes(Counts(0, 1, 0), 1) && Takes(Budget.Zero(), 0)
  {
    hide Counts.Plus;
  }

  lemma KeeperSize(n: nat, v: U64, p: Program)
    requires p.funcs == [Keeper(n, v)] && FrameSize(Keeper(n, v).locals) < TWO64
    ensures SizeOf(p, p.funcs[0]) <= BUFFER
  {
    hide HeadCode, ExprCode, Body, StmtSize, FrameSize, Offsets;
    var f := p.funcs[0];
    var k := Ctx(Offsets(f.locals), map[], map[], p.tick);
    Layout(n, v);
    BodyShape(k, v, 0);
    SumCode(k);
    AssignShape(k, v);
    HeadShort(f);
  }

  lemma HeadShort(f: Func)
    requires |ParamSlots(f)| == 0
    ensures |HeadCode(f)| <= 10
  {
    hide LoadImm, FrameSize;
    assert SpillCode(ParamSlots(f), 0) == [];
  }
}
