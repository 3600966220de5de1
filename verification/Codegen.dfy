/**
 Whole programs through the generator: every function in turn, then the calls between them.
 */
module Codegen {
  import opened Common
  import opened Memory
  import opened Machine
  import opened Csyntax
  import opened Csemantics
  import opened CodeSpec
  import opened Compile
  import opened Patches
  import opened Budget
  import opened Emitter
  import opened Overflow

  /** Parsed programs: case labels only inside switches. */
  predicate Parsed(p: Program) {
    forall f :: f in p.funcs ==> Shaped(f.body) && Cases(f.body) == []
  }

  /** A function opens more than 64 loops and switches inside each other. */
  predicate Overruns(p: Program) {
    exists j :: 0 <= j < |p.funcs| && Deep(p.funcs[j].body, 0)
  }

  function FuncCounts(p: Program, f: Func): Counts {
    Counts(1, 0, 0).Plus(StmtCounts(f.body, p))
  }

  function CallsUpTo(p: Program, i: nat): nat
    requires i <= |p.funcs|
  {
    if i == 0 then 0 else CallsUpTo(p, i - 1) + FuncCounts(p, p.funcs[i - 1]).calls
  }

  /** The first `i` functions are well formed, find enough labels, and fit the buffer. */
  predicate Accepted(p: Program, cap: nat, i: nat)
    requires i <= |p.funcs|
  {
    && EntryIndex(p, i) <= cap
    && forall j :: 0 <= j < i ==> StmtWf(p.funcs[j].body, p, false, false) && FuncCounts(p, p.funcs[j]).labels <= MAXLAB
  }

  /** No fixup of the first `i` functions finds its table full. */
  predicate FixupsFit(p: Program, i: nat)
    requires i <= |p.funcs|
  {
    CallsUpTo(p, i) <= MAXCFX && forall j :: 0 <= j < i ==> FuncCounts(p, p.funcs[j]).branches <= MAXBFX
  }

  /** The state after `i` functions. */
  ghost function After(pl: Platform, p: Program, cap: nat, i: nat): Status
    requires i <= |p.funcs|
  {
    if i == 0 then Good([], Zero())
    else
      var f := p.funcs[i - 1];
      Afresh(Charge(After(pl, p, cap, i - 1), FuncUse(f, CtxFor(pl, p, f), p, EntryIndex(p, i - 1)), cap))
  }

  lemma AcceptedStep(p: Program, cap: nat, i: nat)
    requires 0 < i <= |p.funcs|
    ensures Accepted(p, cap, i) <==>
      (Accepted(p, cap, i - 1) && EntryIndex(p, i) <= cap
       && StmtWf(p.funcs[i - 1].body, p, false, false) && FuncCounts(p, p.funcs[i - 1]).labels <= MAXLAB)
  {
    hide EntryIndex, StmtWf, FuncCounts;
    EntriesGrow(p, i - 1, i);
  }

  lemma FixupsStep(p: Program, i: nat)
    requires 0 < i <= |p.funcs|
    ensures FixupsFit(p, i) <==> FixupsFit(p, i - 1) && CallsUpTo(p, i) <= MAXCFX && FuncCounts(p, p.funcs[i - 1]).branches <= MAXBFX
    ensures CallsUpTo(p, i) == CallsUpTo(p, i - 1) + FuncCounts(p, p.funcs[i - 1]).calls
  {
    hide FuncCounts;
  }

  lemma FuncUseIs(pl: Platform, p: Program, i: nat)
    requires 0 < i <= |p.funcs|
    ensures var f := p.funcs[i - 1];
            FuncUse(f, CtxFor(pl, p, f), p, EntryIndex(p, i - 1))
            == Use(StmtWf(f.body, p, false, false), FuncWords(pl, p, i - 1), FuncCounts(p, f))
  {
    hide StmtWf, StmtCounts, FuncCode, EntryIndex, Names;
  }

  lemma {:induction false} AfterIs(pl: Platform, p: Program, cap: nat, i: nat)
    requires i <= |p.funcs|
    ensures After(pl, p, cap, i).Bad? <==> !Accepted(p, cap, i)
    ensures After(pl, p, cap, i).Good? <==> Accepted(p, cap, i) && FixupsFit(p, i)
    ensures After(pl, p, cap, i).Good? ==> After(pl, p, cap, i).n == Counts(0, 0, CallsUpTo(p, i))
    ensures Accepted(p, cap, i) ==>
      && |After(pl, p, cap, i).spec| == EntryIndex(p, i)
      && After(pl, p, cap, i).spec + CodeFrom(pl, p, i) == CodeFrom(pl, p, 0)
    ensures After(pl, p, cap, i).Silent? ==> After(pl, p, cap, i).labels == 0
  {
    hide CodeFrom, Accepted, FixupsFit, EntryIndex, CallsUpTo, FuncUse, FuncWords, FuncCounts, StmtWf, CtxFor;
    if i == 0 {
      NoFunctions(p, cap);
      assert [] + CodeFrom(pl, p, 0) == CodeFrom(pl, p, 0);
      return;
    }
    AfterIs(pl, p, cap, i - 1);
    CodeStep(pl, p, i - 1);
    AcceptedStep(p, cap, i);
    FixupsStep(p, i);
    FuncUseIs(pl, p, i);
    var s := After(pl, p, cap, i - 1);
    var c := FuncWords(pl, p, i - 1);
    if !s.Bad? {
      assert s.spec + c + CodeFrom(pl, p, i) == s.spec + (c + CodeFrom(pl, p, i));
    }
  }

  lemma NoFunctions(p: Program, cap: nat)
    ensures EntryIndex(p, 0) == 0 && Accepted(p, cap, 0) && FixupsFit(p, 0) && CallsUpTo(p, 0) == 0
  {
  }

  lemma AllCode(pl: Platform, p: Program)
    ensures Build(pl, p).code == CodeFrom(pl, p, 0)
    ensures CodeFrom(pl, p, |p.funcs|) == []
  {
  }

  /** An accepted program was accepted up to every function. */
  lemma AcceptedEarlier(p: Program, cap: nat, i: nat, j: nat)
    requires i <= j <= |p.funcs| && Accepted(p, cap, j)
    ensures Accepted(p, cap, i)
  {
    EntriesGrow(p, i, j);
  }

  /** A loop guard, code above address 0, and a buffer of at most 256 KiB: what the kernel has. */
  predicate Installed(pl: Platform, p: Program, bytes: nat) {
    p.tick != 0 && 0 < pl.base && pl.base + 4 * EntryIndex(p, |p.funcs|) < TWO64 && bytes <= 4 * BUFFER
  }

  /**
   The compiler back end. It reports success exactly for accepted programs with a `main`. The
   words are then those of `Build` exactly when no table of fixups overflowed: an overflow is not
   reported, and leaves a wrong word behind. `stray` says that a branch was patched past the end of
   the buffer, which happens only in a run that is refused, and `over` that a break target was
   written past the end of their stack; nothing is promised of what follows that.
   */
  method Generate(pl: Platform, p: Program, bytes: nat) returns (r: Option<nat>, words: seq<Word32>, stray: bool, over: bool)
    requires Parsed(p)
    ensures over ==> Overruns(p)
    ensures Accepted(p, bytes / 4, |p.funcs|) ==> (over <==> Overruns(p))
    ensures !over ==> (r.Some? <==> Accepted(p, bytes / 4, |p.funcs|) && Find(p.funcs, "main", 0) >= 0)
    ensures !over && r.Some? ==> r.value == EntryIndex(p, Find(p.funcs, "main", 0)) && |words| == EntryIndex(p, |p.funcs|)
    ensures !over && r.Some? && FixupsFit(p, |p.funcs|) ==> words == Words(Build(pl, p).code)
    ensures !over && r.Some? && Installed(pl, p, bytes) ==> (words == Words(Build(pl, p).code) <==> FixupsFit(p, |p.funcs|))
    ensures !over && r.Some? ==> !stray
    ensures |p.funcs| == 1 && StraightFunc(p.funcs[0]) ==> !over && (stray <==> bytes / 4 <= 4 * Lead(p.funcs[0].body.list) + 6)
  {
    hide Accepted, FixupsFit, EntryIndex, CodeFrom, Words, Charge, FuncUse, Patched, Find, ApplyCalls, After, Placeholder, Installed, Addresses, Names, StraightFunc, Lead, Overruns;
    if |p.funcs| == 1 && StraightFunc(p.funcs[0]) { StraightShallow(p); }
    var g := new Generator(pl, p, bytes);
    var cap, n := bytes / 4, |p.funcs|;
    var codeOff := GenFuncs(g);
    stray, over := g.stray, g.over;
    if g.failed || g.oom {
      return None, [], stray, over;
    }
    AfterIs(pl, p, cap, n);
    AllCode(pl, p);
    assert g.spec == Build(pl, p).code by { assert g.spec + [] == g.spec; }
    g.Finished();
    ghost var gap, lost := g.gap, g.Status().Silent?;
    AddressesAre(pl, p);
    g.ResolveCalls(codeOff);
    var m := g.FindFunc("main");
    if m < 0 {
      return None, [], stray, over;
    }
    if lost && Installed(pl, p, bytes) { LostIsWrong(pl, p, bytes, g.code, gap); }
    return Some(codeOff[m]), g.code, stray, over;
  }

  /** Every function in turn, up to the first that fails or finds the buffer full. */
  method GenFuncs(g: Generator) returns (codeOff: seq<nat>)
    requires g.Valid() && g.Status() == Good([], Zero()) && g.code == [] && g.fixes == [] && !g.stray && !g.over && Parsed(g.p)
    modifies g
    ensures g.Valid() && g.fixes == []
    ensures g.failed || g.oom <==> !Accepted(g.p, g.bytes / 4, |g.p.funcs|)
    ensures !g.failed && !g.oom ==>
      && Afresh(g.Status()) == After(g.pl, g.p, g.bytes / 4, |g.p.funcs|) && |g.code| == EntryIndex(g.p, |g.p.funcs|) && !g.stray
      && |codeOff| == |g.p.funcs| && forall j :: 0 <= j < |codeOff| ==> codeOff[j] == EntryIndex(g.p, j)
    ensures (g.over ==> Overruns(g.p)) && (!g.failed && !g.oom ==> (g.over <==> Overruns(g.p)))
    ensures |g.p.funcs| == 1 && StraightFunc(g.p.funcs[0]) ==> (g.stray <==> g.bytes / 4 <= 4 * Lead(g.p.funcs[0].body.list) + 6)
  {
    hide Accepted, FixupsFit, EntryIndex, CodeFrom, Charge, FuncUse, Patched, After, Addresses, Names, Straight, Lead, Shaped, Cases, Deep;
    var p, pl, cap, n := g.p, g.pl, g.bytes / 4, |g.p.funcs|;
    codeOff := [];
    NoFunctions(p, cap);
    AfterNone(pl, p, cap);
    var i := 0;
    while i < n
      invariant 0 <= i <= n && |codeOff| == i
      invariant g.Valid() && g.fixes == [] && !g.failed && !g.oom && !g.stray
      invariant Afresh(g.Status()) == After(pl, p, cap, i)
      invariant |g.code| == EntryIndex(p, i)
      invariant forall j :: 0 <= j < i ==> codeOff[j] == EntryIndex(p, j)
      invariant g.over <==> exists j :: 0 <= j < i && Deep(p.funcs[j].body, 0)
      invariant i == n == 1 && StraightFunc(p.funcs[0]) ==> cap > 4 * Lead(p.funcs[0].body.list) + 6
    {
      codeOff := codeOff + [|g.code|];
      assert p.funcs[i] in p.funcs;
      g.GenFunc(p.funcs[i], EntryIndex(p, i));
      i := i + 1;
      AfterStep(pl, p, cap, i);
      AfterIs(pl, p, cap, i);
      if g.failed || g.oom {
        if Accepted(p, cap, n) { AcceptedEarlier(p, cap, i, n); }
        return;
      }
    }
    AfterIs(pl, p, cap, n);
  }

  lemma StraightShallow(p: Program)
    requires |p.funcs| == 1 && StraightFunc(p.funcs[0])
    ensures !Overruns(p)
  {
    StraightNotDeep(p.funcs[0].body.list);
  }

  lemma {:induction false} StraightNotDeep(ss: Stmts)
    requires Straight(ss)
    ensures !DeepList(ss, 0)
  {
    if !ss.first.Return? {
      StraightNotDeep(ss.rest);
    }
  }

  lemma AddressesAre(pl: Platform, p: Program)
    ensures forall i :: 0 <= i < |p.funcs| ==> Addresses(pl, p)[i] == Wrap(pl.base + 4 * EntryIndex(p, i))
  {
    hide EntryIndex;
  }

  lemma LostIsWrong(pl: Platform, p: Program, bytes: nat, words: seq<Word32>, x: Span)
    requires Installed(pl, p, bytes) && Accepted(p, bytes / 4, |p.funcs|)
    requires x.lo < x.hi <= |words| == |Build(pl, p).code|
    requires Placeholder(words[x.lo..x.hi], Build(pl, p).code[x.lo..x.hi], Addresses(pl, p))
    ensures words != Words(Build(pl, p).code)
  {
    hide CodeFrom, EntryIndex, Placeholder, Words, Moves, Addresses, StmtWf;
    AllCode(pl, p);
    CodeMoves(pl, p, 0);
    EntriesNonZero(pl, p);
    LossShows(words, Build(pl, p).code, x, Addresses(pl, p));
  }

  lemma AfterNone(pl: Platform, p: Program, cap: nat)
    ensures After(pl, p, cap, 0) == Good([], Zero())
  {
  }

  lemma AfterStep(pl: Platform, p: Program, cap: nat, i: nat)
    requires 0 < i <= |p.funcs|
    ensures var f := p.funcs[i - 1];
            After(pl, p, cap, i) == Afresh(Charge(After(pl, p, cap, i - 1), FuncUse(f, CtxFor(pl, p, f), p, EntryIndex(p, i - 1)), cap))
  {
    hide Charge, FuncUse, EntryIndex, CtxFor;
  }

  // ---------- an accepted program with too many branches ----------

  function Repeat(s: Stmt, n: nat): Stmts {
    if n == 0 then Done else Then(s, Repeat(s, n - 1))
  }

  /** `main` with `n` statements `return 0;`. */
  function ManyReturns(n: nat): Program {
    Program([Func("main", [], [], Block(Repeat(Return(Num(0)), n)))], map[], 1, 0)
  }

  lemma {:induction false} RepeatFits(s: Stmt, n: nat, p: Program)
    requires StmtWf(s, p, false, false) && Shaped(s) && |Cases(s)| == 0 && StmtCounts(s, p) == Counts(0, 1, 0)
    ensures ListWf(Repeat(s, n), p, false, false) && AllShaped(Repeat(s, n)) && |CasesOf(Repeat(s, n))| == 0
    ensures ListCounts(Repeat(s, n), p) == Counts(0, n, 0)
  {
    hide StmtWf, Shaped, Cases, StmtCounts;
    if n > 0 {
      RepeatFits(s, n - 1, p);
    }
  }

  lemma {:induction false} RepeatSize(s: Stmt, n: nat, k: Ctx)
    requires StmtSize(s, k) == 5
    ensures ListSize(Repeat(s, n), k) == 5 * n
  {
    hide StmtSize;
    if n > 0 {
      RepeatSize(s, n - 1, k);
    }
  }

  lemma ReturnFits(e: Expr, p: Program)
    requires e.Num?
    ensures StmtWf(Return(e), p, false, false) && Shaped(Return(e)) && |Cases(Return(e))| == 0
  {
    hide StmtCounts;
  }

  lemma ReturnCounts(e: Expr, p: Program)
    requires e.Num?
    ensures StmtCounts(Return(e), p) == Counts(0, 1, 0)
  {
    hide ExprCounts, Counts.Plus;
    NumCounts(e, p);
    OneMore();
  }

  lemma NumCounts(e: Expr, p: Program)
    requires e.Num?
    ensures ExprCounts(e, p) == Counts(0, 0, 0)
  {
    hide Counts.Plus;
  }

  lemma OneMore()
    ensures Counts(0, 0, 0).Plus(Counts(0, 1, 0)) == Counts(0, 1, 0)
  {
  }

  lemma ReturnSize(e: Expr, k: Ctx)
    requires e.Num?
    ensures StmtSize(Return(e), k) == 5
  {
    assert |ExprCode(e, k)| == 4;
  }

  /**
   `main` with 2049 return statements is accepted without an error and overflows the branch
   table: by the contract of `Generate` its words are not those of the program.
   */
  lemma ReturnsOverflow(n: nat)
    requires n <= 10000
    ensures var p := ManyReturns(n);
            Parsed(p) && !Overruns(p) && Accepted(p, BUFFER, 1) && Find(p.funcs, "main", 0) == 0 && (FixupsFit(p, 1) <==> n <= MAXBFX)
  {
    hide SizeOf, StmtWf, StmtCounts, Shaped, Cases, DeepList, Repeat;
    var p := ManyReturns(n);
    RepeatShallow(Return(Num(0)), n);
    MainFits(n, p);
    MainSize(n, p);
    assert EntryIndex(p, 1) == EntryIndex(p, 0) + SizeOf(p, p.funcs[0]);
    assert CallsUpTo(p, 1) == CallsUpTo(p, 0) + FuncCounts(p, p.funcs[0]).calls;
  }

  lemma {:induction false} RepeatShallow(s: Stmt, n: nat)
    requires s.Return?
    ensures !DeepList(Repeat(s, n), 0)
  {
    if n > 0 {
      RepeatShallow(s, n - 1);
    }
  }

  lemma MainFits(n: nat, p: Program)
    requires p == ManyReturns(n)
    ensures var b := p.funcs[0].body;
            StmtWf(b, p, false, false) && Shaped(b) && |Cases(b)| == 0 && StmtCounts(b, p) == Counts(0, n, 0)
  {
    hide Repeat, StmtWf, Shaped, Cases, StmtCounts;
    ReturnFits(Num(0), p);
    ReturnCounts(Num(0), p);
    RepeatFits(Return(Num(0)), n, p);
    BlockFits(Repeat(Return(Num(0)), n), p);
  }

  lemma BlockFits(ss: Stmts, p: Program)
    ensures StmtWf(Block(ss), p, false, false) == ListWf(ss, p, false, false) && Shaped(Block(ss)) == AllShaped(ss)
    ensures Cases(Block(ss)) == CasesOf(ss) && StmtCounts(Block(ss), p) == ListCounts(ss, p)
  {
    hide ListWf, AllShaped, CasesOf, ListCounts;
  }

  lemma MainSize(n: nat, p: Program)
    requires n <= 10000 && p == ManyReturns(n)
    ensures SizeOf(p, p.funcs[0]) <= BUFFER
  {
    hide HeadCode, ExprCode, Repeat;
    var f := p.funcs[0];
    var k := Ctx(Offsets(f.locals), map[], map[], p.tick);
    ReturnSize(Num(0), k);
    RepeatSize(Return(Num(0)), n, k);
    assert StmtSize(f.body, k) == ListSize(f.body.list, k);
    HeadSize(f);
  }

  lemma HeadSize(f: Func)
    requires f.params == []
    ensures |HeadCode(f)| <= 10
  {
    hide LoadImm, FrameSize;
    assert ParamSlots(f) == [];
  }

  // ---------- a program that is patched past the end of the buffer ----------

  function Numerals(n: nat): Stmts {
    if n == 0 then Then(Return(Num(0)), Done) else Then(ExprStmt(Num(0)), Numerals(n - 1))
  }

  /** `main` with `n` statements `0;` and a `return 0;`. */
  function ManyNumerals(n: nat): Program {
    Program([Func("main", [], [], Block(Numerals(n)))], map[], 1, 0)
  }

  lemma {:induction false} NumeralsAre(n: nat)
    ensures Straight(Numerals(n)) && Lead(Numerals(n)) == n && AllShaped(Numerals(n)) && |CasesOf(Numerals(n))| == 0
  {
    if n > 0 {
      NumeralsAre(n - 1);
    }
  }

  /**
   The kernel's buffer of 256 KiB is written past its end by a `main` of n such statements exactly
   for n from 16383 on; the run is refused, but only afterwards.
   */
  method PastTheEnd(pl: Platform, n: nat) returns (r: Option<nat>, stray: bool)
    ensures stray <==> n >= 16383
    ensures stray ==> r.None?
  {
    hide Accepted, FixupsFit, Installed, Build, EntryIndex, Find, Straight, Lead, AllShaped;
    var p := ManyNumerals(n);
    NumeralsAre(n);
    BlockFits(Numerals(n), p);
    assert p.funcs[0].body == Block(Numerals(n));
    var words, over;
    r, words, stray, over := Generate(pl, p, 4 * BUFFER);
  }

  // ---------- a program nested too deep ----------

  function Nest(n: nat): Stmt {
    if n == 0 then Block(Done) else While(Num(1), Nest(n - 1))
  }

  /** `main` with `n` loops `while (1)` around an empty block. */
  function ManyLoops(n: nat): Program {
    Program([Func("main", [], [], Block(Then(Nest(n), Done)))], map[], 1, 0)
  }

  lemma {:induction false} NestIs(n: nat, d: nat, p: Program, k: Ctx)
    requires p.tick != 0 && k.tick != 0
    ensures Deep(Nest(n), d) <==> n > 0 && d + n > LOOPDEPTH
    ensures Shaped(Nest(n)) && |Cases(Nest(n))| == 0 && forall b, c :: StmtWf(Nest(n), p, b, c)
    ensures StmtCounts(Nest(n), p).labels == 2 * n && StmtSize(Nest(n), k) == 12 * n
  {
    hide ExprCode, ExprWf, ExprCounts, StmtCounts, TickCounts;
    NumLoop(k, p);
    EmptyCounts(p);
    if n > 0 {
      NestIs(n - 1, d + 1, p, k);
      WhileLabels(Num(1), Nest(n - 1), p);
    }
  }

  lemma EmptyCounts(p: Program)
    ensures StmtCounts(Block(Done), p).labels == 0
  {
  }

  lemma WhileLabels(c: Expr, b: Stmt, p: Program)
    ensures StmtCounts(While(c, b), p).labels == 2 + ExprCounts(c, p).labels + StmtCounts(b, p).labels
  {
    hide ExprCounts;
  }

  lemma BlockLabels(s: Stmt, p: Program)
    ensures StmtCounts(Block(Then(s, Done)), p).labels == StmtCounts(s, p).labels
  {
    hide Counts.Plus, Zero;
    PlusZero(StmtCounts(s, p));
    assert ListCounts(Done, p) == Zero();
    assert ListCounts(Then(s, Done), p) == StmtCounts(s, p).Plus(ListCounts(Done, p));
  }

  lemma BlockOfOne(s: Stmt, p: Program)
    requires Shaped(s) && StmtWf(s, p, false, false)
    ensures var b := Block(Then(s, Done));
            StmtWf(b, p, false, false) && Shaped(b) && |Cases(b)| == |Cases(s)| && (Deep(b, 0) <==> Deep(s, 0))
  {
    hide StmtWf, Shaped, Cases, Deep;
    OneWf(s, p);
    assert |CasesOf(Then(s, Done))| == |Cases(s)| + |CasesOf(Done)|;
  }

  lemma OneWf(s: Stmt, p: Program)
    ensures var b := Block(Then(s, Done));
            (StmtWf(b, p, false, false) <==> StmtWf(s, p, false, false)) && (Shaped(b) <==> Shaped(s)) && (Deep(b, 0) <==> Deep(s, 0))
    ensures |Cases(Block(Then(s, Done)))| == |CasesOf(Then(s, Done))|
  {
    assert ListWf(Then(s, Done), p, false, false) <==> StmtWf(s, p, false, false);
    assert AllShaped(Then(s, Done)) <==> Shaped(s);
    assert DeepList(Then(s, Done), 0) <==> Deep(s, 0);
  }

  lemma NumLoop(k: Ctx, p: Program)
    ensures |ExprCode(Num(1), k)| == 4 && ExprWf(Num(1), p) && ExprCounts(Num(1), p).labels == 0
  {
  }

  /** Sixty-five nested loops are accepted, and write a break target past the end of their stack; sixty-four do not. */
  method TooDeep(pl: Platform, n: nat) returns (over: bool)
    requires n <= 1000
    ensures over <==> n > LOOPDEPTH
  {
    hide Accepted, FixupsFit, Installed, Build, Find, Deep, Nest, StmtWf, StmtCounts, StmtSize, Shaped, Cases;
    var p := ManyLoops(n);
    LoopsAccepted(n);
    var r, words, stray;
    r, words, stray, over := Generate(pl, p, 4 * BUFFER);
  }

  lemma LoopsAccepted(n: nat)
    requires n <= 1000
    ensures var p := ManyLoops(n); Parsed(p) && Accepted(p, BUFFER, 1) && (Overruns(p) <==> n > LOOPDEPTH)
  {
    hide SizeOf, Nest, StmtWf, StmtCounts, Shaped, Cases, Deep;
    var p := ManyLoops(n);
    LoopsFit(n, p);
    LoopsSize(n, p);
    assert EntryIndex(p, 1) == EntryIndex(p, 0) + SizeOf(p, p.funcs[0]);
  }

  lemma LoopsFit(n: nat, p: Program)
    requires p == ManyLoops(n) && n <= 1000
    ensures var b := p.funcs[0].body;
            StmtWf(b, p, false, false) && Shaped(b) && |Cases(b)| == 0 && StmtCounts(b, p).labels == 2 * n && (Deep(b, 0) <==> n > LOOPDEPTH)
  {
    hide Nest, StmtCounts, StmtWf, Shaped, Cases, Deep, StmtSize;
    NestIs(n, 0, p, Ctx([], map[], map[], p.tick));
    BlockLabels(Nest(n), p);
    BlockOfOne(Nest(n), p);
  }

  lemma LoopsSize(n: nat, p: Program)
    requires p == ManyLoops(n) && n <= 1000
    ensures SizeOf(p, p.funcs[0]) <= BUFFER
  {
    hide HeadCode, Nest;
    var f := p.funcs[0];
    var k := Ctx(Offsets(f.locals), map[], map[], p.tick);
    NestIs(n, 0, p, k);
    assert StmtSize(f.body, k) == ListSize(f.body.list, k);
    HeadSize(f);
  }
}
