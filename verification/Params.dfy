/**
 Arguments reach their parameters: when the body of a function starts, in the source semantics as
 in the generated code, the slot of parameter `i` holds argument `i`.
 */
module Params {
  import opened Common
  import opened Memory
  import opened Isa
  import opened Machine
  import opened Csyntax
  import opened Csemantics
  import opened CodeSpec
  import opened SimBase
  import opened SimCalls
  import opened Simulation
  import opened Compile
  import opened BigFrame

  /** A variable of type `ty` at `a` has the value: the whole word, or the low byte in a variable of one byte. */
  ghost predicate Holds(ty: Ty, a: int, v: U64, m: Ram) {
    if ty.Size() == 1 then Get(m, a) == v % 256 else LoadWord(m, a) == v
  }

  /** Every parameter's slot, as the layout of the locals places it below `fp`, holds its argument. */
  ghost predicate ParamsHold(f: Func, fp: int, vals: seq<U64>, m: Ram)
    requires ParamsOk(f) && |f.params| <= |vals|
  {
    forall i :: 0 <= i < |f.params| ==> Holds(f.locals[f.params[i]], fp - Offsets(f.locals)[f.params[i]], vals[i], m)
  }

  /** The parameters are distinct variables of the function, none of them without a byte. */
  predicate ParamsOk(f: Func) {
    && (forall i :: 0 <= i < |f.params| ==> f.params[i] < |f.locals| && f.locals[f.params[i]].Size() >= 1)
    && (forall i, j :: 0 <= i < j < |f.params| ==> f.params[i] != f.params[j])
  }

  // ---------- one store ----------

  lemma ByteHolds(m: Ram, a: int, v: U64)
    ensures Get(StoreN(m, a, v, 1), a) == v % 256
  {
  }

  /** A parameter's store is allowed, is seen there, and touches nothing beyond its eight bytes. */
  lemma StoreHolds(ty: Ty, a: U64, v: U64, m: Ram, alloc: set<int>)
    requires Covers(alloc, a, 8)
    ensures Write(ty, a, v, m, alloc).Some?
    ensures var m' := Write(ty, a, v, m, alloc).value;
            && Holds(ty, a, v, m')
            && (forall x :: x in m ==> x in m') && (forall x :: x in m' ==> x in m || a <= x < a + 8)
            && (forall x :: !(a <= x < a + 8) ==> Get(m', x) == Get(m, x))
            && forall x :: a <= x < a + (if ty.Size() == 1 then 1 else 8) ==> x in m'
  {
    if ty.Size() == 1 {
      ByteHolds(m, a, v);
    } else {
      LoadStoreWord(m, a, v);
    }
  }

  lemma HoldsStill(ty: Ty, a: int, v: U64, m: Ram, m': Ram)
    requires Holds(ty, a, v, m) && forall x :: a <= x < a + 8 ==> Get(m', x) == Get(m, x)
    ensures Holds(ty, a, v, m')
  {
    LoadNAgree(m, m', a, 8);
  }

  /** Where parameter `i` is. */
  function ParamAt(f: Func, fp: int, i: nat): int
    requires ParamsOk(f) && i < |f.params|
  {
    fp - Offsets(f.locals)[f.params[i]]
  }

  /** Eight bytes from a parameter's address on are in the frame, and no two parameters share one. */
  lemma ParamRoom(f: Func, fp: int, i: nat, j: nat)
    requires ParamsOk(f) && i < |f.params| && j < |f.params|
    ensures fp - FrameSize(f.locals) <= ParamAt(f, fp, i) <= fp - 8
    ensures i != j ==> ParamAt(f, fp, i) + 8 <= ParamAt(f, fp, j) || ParamAt(f, fp, j) + 8 <= ParamAt(f, fp, i)
  {
    hide FrameSize, Offset;
    var p, q := f.params[i], f.params[j];
    OneSlot(f.locals, p);
    OneSlot(f.locals, q);
    if p < q {
      SlotsDisjoint(f.locals, p, q);
    } else if q < p {
      SlotsDisjoint(f.locals, q, p);
    }
  }

  lemma OneSlot(locals: seq<Ty>, i: nat)
    requires i < |locals|
    ensures locals[i].Size() <= Offsets(locals)[i] <= FrameSize(locals) && Offsets(locals)[i] % 8 == 0
  {
    if i + 1 < |locals| {
      SlotsDisjoint(locals, i, i + 1);
    }
  }

  // ---------- the source ----------

  /** Parameters before `i` hold their arguments. */
  ghost predicate HoldUpTo(f: Func, fp: int, vals: seq<U64>, m: Ram, i: nat)
    requires ParamsOk(f) && i <= |f.params| <= |vals|
  {
    forall j :: 0 <= j < i ==> Holds(f.locals[f.params[j]], ParamAt(f, fp, j), vals[j], m)
  }

  /** `m'` is `m` but for bytes of the frame. */
  ghost predicate OnlyFrame(lo: int, hi: int, m: Ram, m': Ram) {
    && (forall x :: x in m ==> x in m') && (forall x :: x in m' ==> x in m || lo <= x < hi)
    && (forall x :: !(lo <= x < hi) ==> Get(m', x) == Get(m, x))
  }

  /** The bytes a parameter is read from are there. */
  ghost predicate Readable(f: Func, fp: int, m: Ram, i: nat)
    requires ParamsOk(f) && i <= |f.params|
  {
    forall j :: 0 <= j < i ==> Covers(m.Keys, ParamAt(f, fp, j), if f.locals[f.params[j]].Size() == 1 then 1 else 8)
  }

  lemma {:induction false} SpillHolds(f: Func, fp: int, alloc: set<int>, vals: seq<U64>, m: Ram, i: nat) returns (m': Ram)
    requires ParamsOk(f) && i <= |f.params| <= |vals| && FrameSize(f.locals) <= fp < TWO64
    requires Covers(alloc, fp - FrameSize(f.locals), FrameSize(f.locals))
    requires HoldUpTo(f, fp, vals, m, i) && Readable(f, fp, m, i)
    ensures Spill(ParamSlots(f), fp, alloc, vals, m, i) == Some(m')
    ensures HoldUpTo(f, fp, vals, m', |f.params|) && Readable(f, fp, m', |f.params|)
    ensures OnlyFrame(fp - FrameSize(f.locals), fp, m, m')
    decreases |f.params| - i
  {
    hide FrameSize, Offset, Holds, Write, Ty.Size;
    if i == |f.params| {
      return m;
    }
    var a := ParamAt(f, fp, i);
    ParamRoom(f, fp, i, i);
    var ty := f.locals[f.params[i]];
    SlotIs(f, i);
    StoreHolds(ty, a, vals[i], m, alloc);
    var m1 := Write(ty, a, vals[i], m, alloc).value;
    forall j | 0 <= j < i ensures Holds(f.locals[f.params[j]], ParamAt(f, fp, j), vals[j], m1) {
      ParamRoom(f, fp, i, j);
      HoldsStill(f.locals[f.params[j]], ParamAt(f, fp, j), vals[j], m, m1);
    }
    m' := SpillHolds(f, fp, alloc, vals, m1, i + 1);
  }

  lemma SlotIs(f: Func, i: nat)
    requires ParamsOk(f) && i < |f.params|
    ensures ParamSlots(f)[i] == Slot(f.locals[f.params[i]], Offsets(f.locals)[f.params[i]])
  {
  }

  /** What an activation makes of the end of its body. */
  ghost predicate Completes(body: Outcome<Exit>, alloc: set<int>, r: Outcome<U64>) {
    match body
    case Ok(Normal, m, t) => r == Ok(0, Restrict(m, alloc), t)
    case Ok(Returned(v), m, t) => r == Ok(v, Restrict(m, alloc), t)
    case _ => r.Fault?
  }

  /**
   A call in the source: the body runs in a fresh frame in which every parameter holds its
   argument and that differs from the caller's memory nowhere else.
   */
  lemma SourceParams(pl: Platform, p: Program, f: Func, vals: seq<U64>, alloc: set<int>, sp: int, m: Ram, t: Trace, fuel: nat) returns (m1: Ram)
    requires ParamsOk(f) && |f.params| <= |vals|
    requires 0 <= p.limit <= sp - 16 - FrameSize(f.locals) && sp <= TWO64
    ensures ParamsHold(f, sp - 16, vals, m1) && Readable(f, sp - 16, m1, |f.params|)
    ensures OnlyFrame(sp - 16 - FrameSize(f.locals), sp - 16, m, m1)
    ensures var inner := alloc + Range(sp - 16 - FrameSize(f.locals), sp - 16);
            Completes(Exec(pl, p, f.body, -1, Env(sp - 16, Offsets(f.locals), inner), sp - 16 - FrameSize(f.locals), m1, t, fuel),
                      alloc, Activate(pl, p, f, vals, alloc, sp, m, t, fuel))
  {
    hide FrameSize, Holds, Exec, Spill, ParamSlots;
    var inner := alloc + Range(sp - 16 - FrameSize(f.locals), sp - 16);
    m1 := SpillHolds(f, sp - 16, inner, vals, m, 0);
  }

  // ---------- the code ----------

  lemma HoldsAgree(ty: Ty, a: int, v: U64, m: Ram, mem: Ram)
    requires Holds(ty, a, v, m) && Agree(m, mem) && Covers(m.Keys, a, if ty.Size() == 1 then 1 else 8)
    ensures Holds(ty, a, v, mem)
  {
    if ty.Size() != 1 {
      LoadNAgree(m, mem, a, 8);
    }
  }

  /**
   A call in the code: with argument `i` in register `i` at the entry of the function, the machine
   gets to the body with the frame made, every parameter's slot holding its argument, and nothing
   changed from the caller's SP up.
   */
  lemma CodeParams(im: Image, f: Func, vals: seq<U64>, s: State) returns (s': State)
    requires ParamsOk(f) && |f.params| <= |vals| <= 8
    requires FrameSize(f.locals) <= 0xFFF && FrameSize(f.locals) + 16 <= s.sp < TWO64 && s.sp % 16 == 0
    requires CodeAt(im.code, s.pc, HeadCode(f))
    requires forall i :: 0 <= i < |vals| ==> s.regs[i] == vals[i]
    ensures Reaches(im.pl, im.code, s, s') && s'.pc == s.pc + |HeadCode(f)|
    ensures s'.regs[FP] == s.sp - 16 && s'.sp == s.sp - 16 - FrameSize(f.locals) && s'.trace == s.trace
    ensures ParamsHold(f, s.sp - 16, vals, s'.mem)
    ensures forall a :: a >= s.sp ==> Get(s'.mem, a) == Get(s.mem, a)
  {
    hide FrameSize, Holds, Reaches, CodeAt, HeadCode, Spill, ParamSlots, LoadWord;
    var env, sp := Env(s.regs[FP], [], {}), s.sp;
    var im0 := im.(p := im.p.(limit := 0));
    var low := sp - 16 - FrameSize(f.locals);
    var inner := InnerEnv(f, {}, sp);
    var m1 := SpillHolds(f, sp - 16, inner.alloc, vals, map[], 0);
    s' := HeadSim(im0, f, vals, env, sp, map[], s.trace, s);
    forall i | 0 <= i < |f.params| ensures Holds(f.locals[f.params[i]], sp - 16 - Offsets(f.locals)[f.params[i]], vals[i], s'.mem) {
      HoldsAgree(f.locals[f.params[i]], ParamAt(f, sp - 16, i), vals[i], m1, s'.mem);
    }
  }

  // ---------- `sub(int a, int b) { return a - b; }` ----------

  /** The list is b, a, so parameter 0 is variable 1. */
  function Subtract(): Func {
    Func("sub", Prepended([Int, Int]), [1, 0], Block(Then(Return(Binary(BinOp.Sub, VarRef(Local(1), Int), VarRef(Local(0), Int))), Done)))
  }

  lemma SubtractLayout()
    ensures Subtract().locals == [Int, Int] && ParamsOk(Subtract())
    ensures Offsets(Subtract().locals) == [8, 16] && FrameSize(Subtract().locals) == 16
  {
    hide Offset, Prepended;
    var ls := [Int, Int];
    assert Subtract().locals == ls;
    TwoWords(ls);
  }

  lemma TwoWords(ls: seq<Ty>)
    requires ls == [Int, Int]
    ensures Offsets(ls) == [8, 16] && FrameSize(ls) == 16
  {
    assert Offset(ls, 0) == 0;
    assert Offset(ls, 1) == 8;
    assert Offset(ls, 2) == 16;
    assert Offsets(ls) == [8, 16];
  }

  lemma SubtractSlots(fp: int, a: U64, b: U64, m: Ram)
    requires ParamsOk(Subtract()) && ParamsHold(Subtract(), fp, [a, b], m) && Readable(Subtract(), fp, m, 2)
    ensures LoadWord(m, fp - 16) == a && Covers(m.Keys, fp - 16, 8)
    ensures LoadWord(m, fp - 8) == b && Covers(m.Keys, fp - 8, 8)
  {
    hide LoadWord, Covers, Offsets, FrameSize, ParamsOk;
    var f := Subtract();
    SubtractLayout();
    assert f.params[0] == 1 && f.params[1] == 0;
    assert ParamAt(f, fp, 0) == fp - 16 && ParamAt(f, fp, 1) == fp - 8;
  }

  /** A variable of one word reads as that word. */
  lemma ReadLocal(pl: Platform, p: Program, env: Env, sp: int, m: Ram, t: Trace, fuel: nat, i: nat)
    requires i < |env.offs| && 0 <= env.fp - env.offs[i] < TWO64 && Covers(m.Keys, env.fp - env.offs[i], 8)
    ensures Eval(pl, p, VarRef(Local(i), Int), env, sp, m, t, fuel) == Ok(LoadWord(m, env.fp - env.offs[i]), m, t)
  {
    hide LoadWord;
    assert Address(pl, p, VarRef(Local(i), Int), env, sp, m, t, fuel) == Ok(env.fp - env.offs[i], m, t);
  }

  lemma SubtractBody(pl: Platform, p: Program, a: U64, b: U64, env: Env, sp: int, m: Ram, t: Trace, fuel: nat)
    requires env.offs == [8, 16] && 16 <= env.fp <= TWO64 && p.limit <= sp - 16
    requires LoadWord(m, env.fp - 16) == a && Covers(m.Keys, env.fp - 16, 8)
    requires LoadWord(m, env.fp - 8) == b && Covers(m.Keys, env.fp - 8, 8)
    ensures Exec(pl, p, Subtract().body, -1, env, sp, m, t, fuel) == Ok(Returned(Wrap(a - b)), m, t)
  {
    hide LoadWord, Covers, Address;
    ReadLocal(pl, p, env, sp, m, t, fuel, 0);
    ReadLocal(pl, p, env, sp - 16, m, t, fuel, 1);
    var e := Binary(BinOp.Sub, VarRef(Local(1), Int), VarRef(Local(0), Int));
    assert Eval(pl, p, e, env, sp, m, t, fuel) == Ok(Wrap(a - b), m, t);
    assert ExecList(pl, p, Then(Return(e), Done), -1, env, sp, m, t, fuel) == Ok(Returned(Wrap(a - b)), m, t);
  }

  /** The source returns the first argument less the second. */
  lemma SubtractMeans(pl: Platform, p: Program, a: U64, b: U64, alloc: set<int>, sp: int, m: Ram, t: Trace, fuel: nat)
    requires 0 <= p.limit <= sp - 48 && sp <= TWO64
    ensures var r := Activate(pl, p, Subtract(), [a, b], alloc, sp, m, t, fuel); r.Ok? && r.v == Wrap(a - b) && r.t == t
  {
    hide LoadWord, FrameSize, Offsets, Activate, Exec, ParamsOk, ParamsHold, Readable, Covers;
    SubtractLayout();
    var f, fp := Subtract(), sp - 16;
    var m1 := SourceParams(pl, p, f, [a, b], alloc, sp, m, t, fuel);
    SubtractSlots(fp, a, b, m1);
    SubtractBody(pl, p, a, b, Env(fp, Offsets(f.locals), alloc + Range(fp - 16, fp)), fp - 16, m1, t, fuel);
  }

  /** And so does its code. */
  lemma SubtractRuns(pl: Platform, a: U64, b: U64, limit: int, env: Env, sp: int, m: Ram, t: Trace, s: State) returns (s': State)
    requires Placeable(pl, Program([Subtract()], map[], 0, limit)) && limit <= sp - 48
    requires Room(limit, env, sp) && Matches(env, sp, m, t, s)
    requires s.pc == 0 && (s.regs[LR] - pl.base) % 4 == 0 && s.regs[0] == a && s.regs[1] == b
    ensures Reaches(pl, Build(pl, Program([Subtract()], map[], 0, limit)).code, s, s')
    ensures s'.pc == (s.regs[LR] - pl.base) / 4 && s'.regs[0] == Wrap(a - b)
  {
    hide Activate, Reaches, CodeAt, FrameSize, Offsets, CodeFrom, FuncCode, Linked, Agree, FuncWords, Names;
    var p := Program([Subtract()], map[], 0, limit);
    SubtractMeans(pl, p, a, b, env.alloc, sp, m, t, 0);
    SubtractLayout();
    EntryZero(p);
    FuncAt(pl, p, 0, 0);
    assert StmtOk(Subtract().body);
    BuildLinked(pl, p);
    s' := ActivateSim(Build(pl, p), 0, [a, b], env, sp, m, t, 0, s);
  }
}
