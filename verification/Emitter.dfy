/**
 The generator as it runs: one pass that appends words, hands out labels, records a fixup for
 every branch and every call, and patches them afterwards. It leaves exactly the code of
 `CodeSpec` behind, and succeeds exactly when everything fits its tables.
 */
module Emitter {
  import opened Memory
  import opened Isa
  import opened Machine
  import opened Csyntax
  import opened Csemantics
  import opened CodeSpec
  import opened Compile
  import opened Patches
  import opened Budget

  /** Length after `n` words were emitted into a buffer of `cap`. */
  function Fill(len: nat, n: nat, cap: nat): nat {
    if len + n <= cap then len + n else if len <= cap then cap else len
  }

  /** Statements `n;` and then one `return n;`. */
  predicate Straight(ss: Stmts) {
    ss.Then? && if ss.first.Return? then ss.first.e.Num? && ss.rest.Done? else Numeral(ss.first) && Straight(ss.rest)
  }

  predicate Numeral(s: Stmt) {
    s.ExprStmt? && s.e.Num?
  }

  /** A function of no parameters and no locals whose body is such a list. */
  predicate StraightFunc(f: Func) {
    f.params == [] && f.locals == [] && f.body.Block? && Straight(f.body.list)
  }

  /** How many come before the `return`. */
  function Lead(ss: Stmts): nat {
    if ss.Done? || ss.first.Return? then 0 else 1 + Lead(ss.rest)
  }

  /** What shows of a generator apart from the words themselves. */
  datatype Snap = Snap(failed: bool, stray: bool, fixes: seq<Fix>, len: nat)

  /** `n` words were added, as far as there was room, and nothing else happened. */
  predicate Grown(a: Snap, b: Snap, n: nat, cap: nat) {
    b == a.(len := Fill(a.len, n, cap))
  }

  /** One fixup was added, for the word at `site`, and no error was reported. */
  predicate OneFixup(a: Snap, b: Snap, site: nat) {
    && b.failed == a.failed && b.stray == a.stray
    && |b.fixes| == |a.fixes| + 1 && a.fixes <= b.fixes && b.fixes[|a.fixes|].site == site
  }

  /** Whether an error was reported, and whether the stack of break targets was overrun. */
  datatype Flags = Flags(failed: bool, over: bool)

  /** The stack is overrun if the statements do that; exactly then if no error was reported. */
  predicate Opened(a: Flags, b: Flags, deep: bool) {
    (a.failed ==> b.failed) && (b.over ==> a.over || deep) && (!b.failed ==> (b.over <==> a.over || deep))
  }

  /** The same with the rest of a list still to come. */
  predicate OpenedSoFar(ss: Stmts, rest: Stmts, depth: nat, a: Flags, b: Flags) {
    Opened(a, b.(over := b.over || DeepList(rest, depth)), DeepList(ss, depth))
  }

  lemma OpenedStep(ss: Stmts, rest: Stmts, depth: nat, a: Flags, b: Flags, c: Flags)
    requires rest.Then? && OpenedSoFar(ss, rest, depth, a, b) && Opened(b, c, Deep(rest.first, depth))
    ensures OpenedSoFar(ss, rest.rest, depth, a, c)
  {
  }

  lemma OpenedEnds(ss: Stmts, depth: nat, a: Flags, b: Flags)
    ensures OpenedSoFar(ss, ss, depth, a, a)
    ensures OpenedSoFar(ss, Done, depth, a, b) ==> Opened(a, b, DeepList(ss, depth))
  {
  }

  lemma FixupAdded(a: Snap, f: Fix, len: nat)
    ensures OneFixup(a, a.(fixes := a.fixes + [f], len := len), f.site)
  {
  }

  /** What numerals, their returns and straight lists of both do while no error was reported. */
  predicate PlainStmt(s: Stmt, a: Snap, b: Snap, cap: nat) {
    !a.failed ==>
      && (Numeral(s) ==> Grown(a, b, 4, cap))
      && (s.Return? && s.e.Num? && |a.fixes| < MAXBFX ==> OneFixup(a, b, Fill(a.len, 4, cap)))
      && (s.Block? ==> PlainList(s.list, Done, a, b, cap))
  }

  /** The same up to the rest of a list. */
  predicate PlainList(ss: Stmts, rest: Stmts, a: Snap, b: Snap, cap: nat) {
    Straight(ss) && !a.failed && |a.fixes| < MAXBFX ==>
      if rest.Then? then Straight(rest) && Lead(rest) <= Lead(ss) && Grown(a, b, 4 * (Lead(ss) - Lead(rest)), cap)
      else OneFixup(a, b, Fill(a.len, 4 * Lead(ss) + 4, cap))
  }

  lemma PlainStart(ss: Stmts, a: Snap, cap: nat)
    ensures PlainList(ss, ss, a, a, cap)
  {
  }

  lemma PlainStep(ss: Stmts, rest: Stmts, a: Snap, b: Snap, c: Snap, cap: nat)
    requires rest.Then? && PlainList(ss, rest, a, b, cap) && PlainStmt(rest.first, b, c, cap)
    ensures PlainList(ss, rest.rest, a, c, cap)
  {
    if Straight(ss) && !a.failed && |a.fixes| < MAXBFX {
      FillFill(a.len, 4 * (Lead(ss) - Lead(rest)), 4, cap);
    }
  }

  lemma FillFill(len: nat, m: nat, n: nat, cap: nat)
    ensures Fill(Fill(len, m, cap), n, cap) == Fill(len, m + n, cap)
  {
  }

  /** Fixups are for words in the buffer; only when it overflowed can one be for the word just past its end. */
  predicate SitesOk(fixes: seq<Fix>, len: nat, full: bool, cap: nat) {
    forall f :: f in fixes ==> f.site < len || (full && f.site == len == cap)
  }

  lemma SitesMore(fixes: seq<Fix>, len: nat, full: bool, cap: nat)
    requires SitesOk(fixes, len, full, cap)
    ensures len < cap ==> SitesOk(fixes, len + 1, full, cap)
    ensures SitesOk(fixes, len, true, cap)
  {
  }

  lemma SiteIs(fixes: seq<Fix>, len: nat, full: bool, cap: nat, f: Fix)
    requires SitesOk(fixes, len, full, cap) && f in fixes && len <= cap
    ensures f.site >= len <==> f.site >= cap
    ensures f.site >= len ==> full
  {
  }

  lemma SitesNone(len: nat, full: bool, cap: nat)
    ensures SitesOk([], len, full, cap)
  {
  }

  lemma SitesAdd(fixes: seq<Fix>, f: Fix, len: nat, full: bool, cap: nat)
    requires SitesOk(fixes, len, full, cap) && f.site == len
    ensures len < cap ==> SitesOk(fixes + [f], len + 1, full, cap)
    ensures len == cap ==> SitesOk(fixes + [f], len, true, cap)
  {
  }

  class Generator {
    const pl: Platform
    const p: Program
    /** Size of the code buffer in bytes. */
    const bytes: nat

    var code: seq<Word32>
    var oom: bool
    var failed: bool
    var labOff: seq<int>
    var nlab: nat
    var fixes: seq<Fix>
    var calls: seq<CallFix>
    var brk: seq<Lab>
    var cont: seq<Lab>
    var ret: Lab
    var offs: seq<nat>
    /** A branch was patched past the end of the buffer. */
    var stray: bool
    /** A break target was written past the end of their stack; what that destroys is not followed. */
    var over: bool

    /** What the buffer is to hold. */
    ghost var spec: Code
    /** A fixup found its table full, and these words were left without it. */
    ghost var dropped: bool
    ghost var gap: Span
    /** Where each label is going to be placed. */
    ghost var goal: seq<int>
    /** Labels handed out and not yet placed. */
    ghost var open: set<int>

    constructor (pl: Platform, p: Program, bytes: nat)
      ensures this.pl == pl && this.p == p && this.bytes == bytes
      ensures Valid() && Status() == Good([], Zero())
      ensures code == [] && fixes == [] && calls == [] && brk == [] && cont == [] && !stray && !over
    {
      this.pl, this.p, this.bytes := pl, p, bytes;
      code, oom, failed, stray, over := [], false, false, false, false;
      labOff, nlab, fixes, calls := seq(MAXLAB, i => 0), 0, [], [];
      brk, cont, ret, offs := [], [], 0, [];
      spec, dropped, gap, goal, open := [], false, Span(0, 0), [], {};
    }

    ghost function Entry(): seq<U64> {
      Addresses(pl, p)
    }

    ghost function K(): Ctx
      reads this
    {
      Ctx(offs, Names(pl, p), p.externs, p.tick)
    }

    function Cap(): nat {
      bytes / 4
    }

    ghost function Final(): (r: seq<Word32>)
      reads this
    {
      Patched(code, fixes, goal, calls, Entry())
    }

    ghost function Status(): Status
      reads this
    {
      if failed || oom then Bad
      else if dropped then Silent(spec, nlab)
      else Good(spec, Counts(nlab, |fixes|, |calls|))
    }

    /** Nothing was lost so far: patching what was recorded gives `spec`. */
    ghost predicate Sound()
      reads this
      requires |labOff| == MAXLAB && nlab <= MAXLAB && |goal| == nlab
    {
      && Final() == Words(spec)
      && InRange(fixes, calls, |code|, |goal|)
      && (forall l :: l in open ==> 0 <= l < nlab)
      && (forall l :: 0 <= l < nlab && l !in open ==> labOff[l] == goal[l])
    }

    ghost predicate Valid()
      reads this
      ensures Valid() ==> Within(Status(), Cap())
      ensures Valid() && !Status().Bad? ==> Size(Status()) == |code|
    {
      && |labOff| == MAXLAB && nlab <= MAXLAB && |goal| == nlab
      && |code| <= Cap() && |fixes| <= MAXBFX && |calls| <= MAXCFX
      && (forall c :: c in calls ==> c.fn < |p.funcs|)
      && SitesOk(fixes, |code|, oom, Cap()) && (stray ==> oom)
      && (!Status().Bad? ==> |spec| == |code|)
      && (Status().Silent? ==> Lost(gap, code, spec, fixes, calls, Entry()))
      && (Status().Good? ==> Sound())
    }

    /** What generating a statement never touches, or only puts back. */
    twostate predicate KeptStmt()
      reads this
    {
      offs == old(offs) && brk == old(brk) && cont == old(cont) && ret == old(ret) && old(goal) <= goal
    }

    /** What generating an expression never touches; errors stay. */
    twostate predicate Kept()
      reads this
    {
      KeptStmt() && over == old(over) && (old(failed) ==> failed)
    }

    twostate predicate Pushed(deep: bool)
      reads this
    {
      Opened(old(Marks()), Marks(), deep)
    }

    ghost function Marks(): Flags
      reads this
    {
      Flags(failed, over)
    }

    /** Exactly these words were added, no fixup was. */
    twostate predicate Appended(c: Code)
      reads this
    {
      && fixes == old(fixes) && calls == old(calls) && dropped == old(dropped) && gap == old(gap)
      && (!Status().Bad? ==> !old(Status()).Bad? && code == old(code) + Words(c) && spec == old(spec) + c)
    }

    ghost function Look(): Snap
      reads this
    {
      Snap(failed, stray, fixes, |code|)
    }

    twostate predicate Grew(n: nat)
      reads this
    {
      Grown(old(Look()), Look(), n, Cap())
    }

    ghost predicate Points(l: int, at: int)
      reads this
    {
      0 <= l < |goal| && goal[l] == at
    }

    // ---------- primitives ----------

    method Emit(i: Instr)
      requires Valid()
      modifies this
      ensures Valid() && Kept() && open == old(open) && goal == old(goal)
      ensures Status() == Charge(old(Status()), Ins([i]), Cap())
      ensures Appended([i]) && Grew(1)
    {
      hide Patched, WordOf, Lost, Words, Addresses, Names, InRange, SitesOk;
      SitesMore(fixes, |code|, oom, Cap());
      if 4 * |code| + 4 > bytes {
        oom := true;
        return;
      }
      if Status().Good? {
        PatchedAppend(code, WordOf(i), fixes, goal, calls, Entry(), |goal|);
        InRangeMore(fixes, calls, |code|, |goal|, |code| + 1, |goal|);
      } else if Status().Silent? {
        LostAppend(gap, code, [WordOf(i)], spec, [i], fixes, calls, Entry());
      }
      WordsSnoc(spec, i);
      code, spec := code + [WordOf(i)], spec + [i];
    }

    method NewLabel(ghost at: int) returns (l: Lab)
      requires Valid()
      modifies this
      ensures Valid() && Kept() && code == old(code)
      ensures fixes == old(fixes) && stray == old(stray) && (old(nlab) < MAXLAB ==> failed == old(failed))
      ensures Status() == Charge(old(Status()), Fresh(1), Cap())
      ensures Status().Good? ==> Points(l, at) && l !in old(open) && open == old(open) + {l}
    {
      hide Patched, WordOf, Lost, SitesOk;
      if nlab >= MAXLAB {
        failed := true;
        return 0;
      }
      l := nlab;
      if Status().Good? {
        PatchedGoal(code, fixes, goal, goal + [at], calls, Entry());
        InRangeMore(fixes, calls, |code|, |goal|, |code|, |goal| + 1);
      }
      assert spec + [] == spec;
      nlab, goal, open := nlab + 1, goal + [at], open + {l};
    }

    method Place(l: Lab)
      requires Valid()
      requires Status().Good? ==> l in open && goal[l] == |code|
      modifies this
      ensures Valid() && Kept() && Status() == old(Status()) && code == old(code) && goal == old(goal)
      ensures open == old(open) - {l}
      ensures Grew(0)
    {
      hide Patched, Lost, SitesOk;
      labOff := labOff[l := |code|];
      open := open - {l};
    }

    /** A branch placeholder at the next word, its fixup recorded while there is room. */
    method EmitBranch(kind: Kind, cond: nat, l: Lab, ghost i: Instr)
      requires Valid()
      requires Status().Good? ==> l < |goal| && i == BranchOf(kind, cond, goal[l] - |code|)
      modifies this
      ensures Valid() && Kept() && open == old(open) && goal == old(goal)
      ensures Status() == Charge(old(Status()), Jump(i), Cap())
      ensures |old(fixes)| < MAXBFX ==> OneFixup(old(Look()), Look(), |old(code)|)
    {
      hide Valid, Status, Charge, SitesOk;
      if |fixes| < MAXBFX {
        EmitFixed(kind, cond, l, i);
      } else {
        EmitLost(kind, cond, l, i);
      }
    }

    method EmitFixed(kind: Kind, cond: nat, l: Lab, ghost i: Instr)
      requires Valid() && |fixes| < MAXBFX
      requires Status().Good? ==> l < |goal| && i == BranchOf(kind, cond, goal[l] - |code|)
      modifies this
      ensures Valid() && Kept() && open == old(open) && goal == old(goal)
      ensures Status() == Charge(old(Status()), Jump(i), Cap())
      ensures OneFixup(old(Look()), Look(), |old(code)|)
    {
      hide Patched, WordOf, Lost, Words, Addresses, Names, InRange, PatchWord, SitesOk, BranchOf, OneFixup, Find, Within, Cat;
      SitesAdd(fixes, Fix(|code|, l, kind, cond), |code|, oom, Cap());
      var w, f := WordOf(BranchOf(kind, 0, 0)), Fix(|code|, l, kind, cond);
      FixupAdded(Look(), f, |code|);
      FixupAdded(Look(), f, |code| + 1);
      if 4 * |code| + 4 > bytes {
        fixes, oom := fixes + [f], true;
        return;
      }
      if Status().Good? {
        FixedHere(kind, cond, l, i);
      } else if Status().Silent? {
        LostBranch(gap, code, w, spec, i, fixes, f, calls, Entry());
      }
      fixes, code, spec := fixes + [f], code + [w], spec + [i];
    }

    lemma FixedHere(kind: Kind, cond: nat, l: Lab, i: Instr)
      requires Valid() && Status().Good? && l < |goal| && i == BranchOf(kind, cond, goal[l] - |code|)
      ensures var w, f := WordOf(BranchOf(kind, 0, 0)), Fix(|code|, l, kind, cond);
              && Patched(code + [w], fixes + [f], goal, calls, Entry()) == Words(spec + [i])
              && InRange(fixes + [f], calls, |code + [w]|, |goal|)
    {
      hide Patched, WordOf, Lost, Words, Addresses, Names, InRange, PatchWord, SitesOk;
      var w, f := WordOf(BranchOf(kind, 0, 0)), Fix(|code|, l, kind, cond);
      WordsSnoc(spec, i);
      PatchedBranch(code, w, fixes, f, goal, calls, Entry(), |goal|);
      InRangeFix(fixes, f, calls, |goal|);
      PatchIs(f, goal);
    }

    lemma LostHere(kind: Kind, cond: nat, l: Lab, i: Instr)
      requires Valid() && Status().Good? && l < |goal| && i == BranchOf(kind, cond, goal[l] - |code|)
      ensures Lost(Span(|code|, |code| + 1), code + [WordOf(BranchOf(kind, 0, 0))], spec + [i], fixes, calls, Entry())
    {
      hide Patched, WordOf, Lost, Words, Addresses, Names, Still, InRange, SitesOk;
      BranchLost(code, WordOf(BranchOf(kind, 0, 0)), spec, i, kind, cond, goal[l] - |code|, fixes, calls, Entry(), |goal|);
    }

    /** The table is full: nobody will patch this word. */
    method EmitLost(kind: Kind, cond: nat, l: Lab, ghost i: Instr)
      requires Valid() && |fixes| >= MAXBFX
      requires Status().Good? ==> l < |goal| && i == BranchOf(kind, cond, goal[l] - |code|)
      modifies this
      ensures Valid() && Kept() && open == old(open) && goal == old(goal)
      ensures Status() == Charge(old(Status()), Jump(i), Cap())
    {
      hide Patched, WordOf, Lost, Words, Addresses, Names, Still, InRange, SitesOk, Sound, BranchOf;
      SitesMore(fixes, |code|, oom, Cap());
      if Status().Good? { LostHere(kind, cond, l, i); }
      var w := WordOf(BranchOf(kind, 0, 0));
      dropped := true;
      if 4 * |code| + 4 > bytes {
        oom := true;
        return;
      }
      if old(Status()).Good? {
        gap := Span(|code|, |code| + 1);
      } else if old(Status()).Silent? {
        LostAppend(gap, code, [w], spec, [i], fixes, calls, Entry());
      }
      code, spec := code + [w], spec + [i];
    }

    // ---------- expressions ----------

    /** This step charged `u`, and left no label of its own unplaced. */
    twostate predicate Did(u: Use)
      reads this
    {
      && Valid() && Kept()
      && Status() == Charge(old(Status()), u, Cap())
      && (Status().Good? ==> open == old(open))
    }

    method LoadConst(r: nat, v: U64)
      requires Valid()
      modifies this
      ensures Did(Ins(LoadImm(r, v))) && Appended(LoadImm(r, v)) && Grew(4)
    {
      hide Patched, Charge, WordOf, Valid, Status, Cat, Within, LoadImm, Names, Words;
      ghost var s, cap, c0, z0 := Status(), Cap(), code, spec;
      var i0, i1, i2, i3 := Movz(r, Field(v, 0)), Movk(r, Field(v, 1), 1), Movk(r, Field(v, 2), 2), Movk(r, Field(v, 3), 3);
      Emit(i0);
      ghost var u := First(s, Ins([i0]), cap);
      Emit(i1);
      u := Join(s, u, Ins([i1]), cap);
      Emit(i2);
      u := Join(s, u, Ins([i2]), cap);
      Emit(i3);
      u := Join(s, u, Ins([i3]), cap);
      ImmSteps(r, v);
      ImmIs(r, v);
      FourWords(c0, z0, i0, i1, i2, i3, r, v);
    }

    /** `r = x29 - off`. */
    method SlotAt(r: nat, off: nat)
      requires Valid()
      modifies this
      ensures Did(Ins(SlotAddress(r, Wrap(off))))
    {
      hide Patched, Charge, WordOf, Valid, Status, Within, LoadImm, Names, Cat, Ins, Grown, OneFixup;
      if Wrap(off) <= 0xFFF {
        Emit(SubImm(r, FP, Wrap(off)));
      } else {
        ghost var s := Status();
        LoadConst(9, Wrap(off));
        Emit(SubReg(r, FP, 9));
        ghost var u := Join(s, Ins(LoadImm(9, Wrap(off))), Ins([SubReg(r, FP, 9)]), Cap());
        InsCat(LoadImm(9, Wrap(off)), [SubReg(r, FP, 9)]);
      }
    }

    method GenAddr(e: Expr)
      requires Valid()
      modifies this
      ensures Did(AddressUse(e, K(), p))
      decreases e, 0
    {
      hide Patched, Charge, WordOf, Valid, Status, Within, LoadImm, Names, Ins, SlotAddress, AddressUse, ExprUse, Cat, Grown, OneFixup;
      ghost var s, k, cap := Status(), K(), Cap();
      AddressSteps(e, k, p);
      StatusWithin();
      ChargeNothing(s, cap);
      ChargeRefused(s, AddressUse(e, k, p), cap);
      match e {
        case VarRef(Global(a), _) => LoadConst(0, a);
        case VarRef(Local(i), _) => if i < |offs| { SlotAt(0, offs[i]); }
        case Deref(q, _) => GenExpr(q);
        case Member(o, off, _) =>
          GenAddr(o);
          if off != 0 {
            Emit(AddImm(0, 0, off % 0x1000));
            ghost var u := Join(s, AddressUse(o, k, p), Ins([AddImm(0, 0, off % 0x1000)]), cap);
          }
        case StrLit(a) => LoadConst(0, a);
        case _ => Fail();
      }
    }

    lemma StatusWithin()
      requires Valid()
      ensures Within(Status(), Cap())
    {
    }

    method Fail()
      requires Valid()
      modifies this
      ensures Valid() && Kept() && Status() == Bad
    {
      failed := true;
    }

    method GenLoad(ty: Ty)
      requires Valid()
      modifies this
      ensures Did(Ins(LoadCode(ty)))
    {
      hide Patched, Charge, WordOf, Valid, Status, Within, Names, Grown, OneFixup;
      StatusWithin();
      ChargeNothing(Status(), Cap());
      if ty.Array? {
        return;
      }
      if ty.Size() == 1 {
        Emit(Ldrb(0, 0));
      } else {
        Emit(Ldr(0, 0));
      }
    }

    method GenStore(ty: Ty)
      requires Valid()
      modifies this
      ensures Did(Ins(StoreCode(ty)))
    {
      hide Patched, Charge, WordOf, Valid, Status, Within, Names, Grown, OneFixup;
      if ty.Size() == 1 {
        Emit(Strb(0, 1));
      } else {
        Emit(Str(0, 1));
      }
    }

    method Pair(i: Instr, j: Instr)
      requires Valid()
      modifies this
      ensures Did(Ins([i, j])) && Grew(2)
    {
      hide Patched, Charge, WordOf, Valid, Status, Within, Names, Ins, Cat;
      ghost var s := Status();
      Emit(i);
      Emit(j);
      ghost var u := Join(s, Ins([i]), Ins([j]), Cap());
      InsCat([i], [j]);
      assert [i] + [j] == [i, j];
    }

    method GenOp(op: BinOp)
      requires Valid()
      modifies this
      ensures Did(Ins(OpCode(op)))
    {
      hide Patched, Charge, WordOf, Valid, Status, Within, Names, Ins, Grown, OneFixup;
      CompareShape(op);
      match op {
        case Add => Emit(AddReg(0, 0, 1));
        case Sub => Emit(SubReg(0, 0, 1));
        case Mul => Emit(Instr.Mul(0, 0, 1));
        case Div => Emit(Sdiv(0, 0, 1));
        case Mod => Pair(Sdiv(2, 0, 1), Msub(0, 2, 1, 0));
        case Eq => Pair(CmpReg(0, 1), Csinc(0, Invert(EQ)));
        case Ne => Pair(CmpReg(0, 1), Csinc(0, Invert(NE)));
        case Lt => Pair(CmpReg(0, 1), Csinc(0, Invert(LT)));
        case Le => Pair(CmpReg(0, 1), Csinc(0, Invert(LE)));
      }
    }

    method GenBinary(op: BinOp, x: Expr, y: Expr)
      requires Valid()
      modifies this
      ensures Did(BinaryUse(op, ExprUse(x, K(), p), ExprUse(y, K(), p)))
      decreases Binary(op, x, y), 0
    {
      hide Patched, Charge, WordOf, Valid, Status, ExprUse, Names, Within, OpCode, Grown, OneFixup;
      ghost var s, k, cap := Status(), K(), Cap();
      ghost var a, b := ExprUse(x, k, p), ExprUse(y, k, p);
      GenExpr(y);
      Emit(Push);
      ghost var u := Join(s, b, Ins([Push]), cap);
      GenExpr(x);
      u := Join(s, u, a, cap);
      Emit(Pop(1));
      u := Join(s, u, Ins([Pop(1)]), cap);
      GenOp(op);
      u := Join(s, u, Ins(OpCode(op)), cap);
    }

    method GenAssign(d: Expr, x: Expr)
      requires Valid()
      modifies this
      ensures Did(AssignUse(AddressUse(d, K(), p), ExprUse(x, K(), p), TypeOf(d)))
      decreases Assign(d, x), 0
    {
      hide Patched, Charge, WordOf, Valid, Status, ExprUse, AddressUse, Names, Within, StoreCode, Grown, OneFixup;
      ghost var s, k, cap := Status(), K(), Cap();
      ghost var a, b := AddressUse(d, k, p), ExprUse(x, k, p);
      GenAddr(d);
      Emit(Push);
      ghost var u := Join(s, a, Ins([Push]), cap);
      GenExpr(x);
      u := Join(s, u, b, cap);
      Emit(Pop(1));
      u := Join(s, u, Ins([Pop(1)]), cap);
      GenStore(TypeOf(d));
      u := Join(s, u, Ins(StoreCode(TypeOf(d))), cap);
    }

    method TwoLabels(ghost at: int, ghost at': int) returns (l: Lab, l': Lab)
      requires Valid()
      modifies this
      ensures Valid() && Kept() && code == old(code)
      ensures Status() == Charge(old(Status()), Fresh(2), Cap())
      ensures Status().Good? ==> Points(l, at) && Points(l', at') && l != l' && l !in old(open) && l' !in old(open) && open == old(open) + {l, l'}
    {
      hide Patched, Charge, WordOf, Valid, Status, Within, Names, Grown, OneFixup;
      ghost var s := Status();
      l := NewLabel(at);
      l' := NewLabel(at');
      ghost var u := Join(s, Fresh(1), Fresh(1), Cap());
      assert u == Fresh(2) by { FreshMore(1, 1); }
    }

    method ThreeLabels(ghost a: int, ghost b: int, ghost c: int) returns (l: Lab, l': Lab, l'': Lab)
      requires Valid()
      modifies this
      ensures Valid() && Kept() && code == old(code)
      ensures Status() == Charge(old(Status()), Fresh(3), Cap())
      ensures Status().Good? ==>
        && Points(l, a) && Points(l', b) && Points(l'', c) && l != l' && l != l'' && l' != l''
        && l !in old(open) && l' !in old(open) && l'' !in old(open) && open == old(open) + {l, l', l''}
    {
      hide Patched, Charge, WordOf, Valid, Status, Within, Names;
      ghost var s := Status();
      l, l' := TwoLabels(a, b);
      l'' := NewLabel(c);
      ghost var u := Join(s, Fresh(2), Fresh(1), Cap());
      FreshMore(2, 1);
    }

    /** The end of `&&` and `||`: `v` if the branch is not taken, the other truth value if it is. */
    method GenTruth(kind: Kind, v: nat, l: Lab, lend: Lab)
      requires Valid() && v <= 1
      requires Status().Good? ==> Points(l, |code| + 3) && Points(lend, |code| + 4) && l in open && lend in open && l != lend
      modifies this
      ensures Valid() && Kept()
      ensures Status() == Charge(old(Status()), TruthUse(kind, v), Cap())
      ensures Status().Good? ==> open == old(open) - {l, lend}
    {
      hide Patched, Charge, WordOf, Valid, Status, Names, Cat, Within, TruthUse, Grown, OneFixup;
      ghost var s, cap := Status(), Cap();
      EmitBranch(kind, 0, l, BranchOf(kind, 0, 3));
      Emit(Movz(0, v));
      ghost var u := Join(s, Jump(BranchOf(kind, 0, 3)), Ins([Movz(0, v)]), cap);
      EmitBranch(KB, 0, lend, B(2));
      u := Join(s, u, Jump(B(2)), cap);
      Place(l);
      Emit(Movz(0, 1 - v));
      u := Join(s, u, Ins([Movz(0, 1 - v)]), cap);
      Place(lend);
      TruthSteps(kind, v);
    }

    /** The left operand of `&&` and the branch past the right one, which takes `n` words. */
    method GenAndHead(x: Expr, ghost n: nat) returns (lfalse: Lab, lend: Lab)
      requires Valid()
      modifies this
      ensures Valid() && Kept()
      ensures Status() == Charge(old(Status()), Cat(Fresh(2), Cat(ExprUse(x, K(), p), Jump(Cbz(n + 4)))), Cap())
      ensures Status().Good? ==>
        && |code| == |old(code)| + |ExprUse(x, K(), p).code| + 1
        && Points(lfalse, |code| + n + 3) && Points(lend, |code| + n + 4)
        && lfalse != lend && lfalse !in old(open) && lend !in old(open) && open == old(open) + {lfalse, lend}
      decreases x, 4
    {
      hide Patched, Charge, WordOf, Valid, Status, ExprUse, ExprCode, Names, Cat, Within, Grown, OneFixup, Fresh, Jump;
      ghost var s, k, cap := Status(), K(), Cap();
      ghost var a := ExprUse(x, k, p);
      ghost var at := |code| + |a.code| + n + 4;
      lfalse, lend := TwoLabels(at, at + 1);
      GenCond(x, lfalse, Cbz(n + 4));
      ghost var u := Join(s, Fresh(2), Cat(a, Jump(Cbz(n + 4))), cap);
      AndHead(a, Cbz(n + 4));
    }

    method GenLogAnd(x: Expr, y: Expr)
      requires Valid()
      modifies this
      ensures Did(AndUse(ExprUse(x, K(), p), ExprUse(y, K(), p)))
      decreases LogAnd(x, y), 0
    {
      hide Patched, Charge, WordOf, Valid, Status, ExprUse, ExprCode, Names, Cat, Within, AndUse, AndCode, TruthUse, Grown, OneFixup, Fresh, Jump;
      ghost var s, k, cap := Status(), K(), Cap();
      ghost var a, b := ExprUse(x, k, p), ExprUse(y, k, p);
      var lfalse, lend := GenAndHead(x, |b.code|);
      AndHead(a, Cbz(|b.code| + 4));
      GenExpr(y);
      ghost var u := Join(s, Cat(Fresh(2), Cat(a, Jump(Cbz(|b.code| + 4)))), b, cap);
      GenTruth(KCbz, 1, lfalse, lend);
      u := Join(s, u, TruthUse(KCbz, 1), cap);
      AndSteps(a, b);
    }

    method GenLogOr(x: Expr, y: Expr)
      requires Valid()
      modifies this
      ensures Did(OrUse(ExprUse(x, K(), p), ExprUse(y, K(), p)))
      decreases LogOr(x, y), 0
    {
      hide Patched, Charge, WordOf, Valid, Status, ExprUse, ExprCode, Names, Cat, Within, OrUse, OrCode, TruthUse, Grown, OneFixup;
      ghost var s, k, cap := Status(), K(), Cap();
      ghost var a, b := ExprUse(x, k, p), ExprUse(y, k, p);
      ghost var at := |code| + |a.code| + |b.code| + 5;
      var ltrue, lend := TwoLabels(at, at + 1);
      GenExpr(x);
      ghost var u := Join(s, Fresh(2), a, cap);
      Emit(CmpZero(0));
      u := Join(s, u, Ins([CmpZero(0)]), cap);
      EmitBranch(KCbnz, 0, ltrue, Cbnz(|b.code| + 4));
      u := Join(s, u, Jump(Cbnz(|b.code| + 4)), cap);
      GenExpr(y);
      u := Join(s, u, b, cap);
      GenTruth(KCbnz, 0, ltrue, lend);
      u := Join(s, u, TruthUse(KCbnz, 0), cap);
      OrSteps(a, b);
    }

    method GenArgs(args: Args, n: nat)
      requires Valid() && (Status() == Bad || args.Length() == n)
      modifies this
      ensures Did(ArgsUse(args, K(), p))
      decreases args, 0
    {
      hide Patched, Charge, WordOf, Valid, Status, ExprUse, Names, Within, Cat, Grown, OneFixup;
      ghost var s, k, cap := Status(), K(), Cap();
      var rest, done := args, 0;
      while rest.Arg? && done < n
        invariant 0 <= done <= n && (rest == args || rest < args) && Valid() && Kept() && K() == k
        invariant Status() == Bad || rest.Length() == n - done
        invariant Charge(Status(), ArgsUse(rest, k, p), cap) == Charge(s, ArgsUse(args, k, p), cap)
        invariant Status().Good? ==> open == old(open)
      {
        ghost var s1 := Status();
        GenExpr(rest.head);
        Emit(Push);
        ghost var u := Join(s1, ExprUse(rest.head, k, p), Ins([Push]), cap);
        u := Join(s1, u, ArgsUse(rest.tail, k, p), cap);
        assert u == ArgsUse(rest, k, p) by { ArgSteps(rest.head, rest.tail, k, p); }
        ChargeRefused(s1, ArgsUse(rest, k, p), cap);
        rest, done := rest.tail, done + 1;
      }
      StatusWithin();
      ChargeNothing(Status(), cap);
      ChargeRefused(Status(), ArgsUse(rest, k, p), cap);
    }

    lemma StatusFailed()
      requires failed
      ensures Status() == Bad && forall u :: Charge(Status(), u, Cap()) == Bad
    {
    }

    method GenRead(e: Expr, ty: Ty)
      requires Valid()
      modifies this
      ensures Did(Cat(AddressUse(e, K(), p), Ins(LoadCode(ty))))
      decreases e, 1
    {
      hide Patched, Charge, WordOf, Valid, Status, Within, Names, AddressUse, LoadCode, Cat, Grown, OneFixup;
      ghost var s, k := Status(), K();
      GenAddr(e);
      GenLoad(ty);
      ghost var u := Join(s, AddressUse(e, k, p), Ins(LoadCode(ty)), Cap());
    }

    /** Load the address of function `fn` into x9 and leave a note to patch it in. */
    method Link(fn: nat)
      requires Valid() && fn < |p.funcs|
      modifies this
      ensures Did(Use(true, LoadImm(9, Entry()[fn]), Counts(0, 0, 1)))
    {
      hide Valid, Status, Charge, LoadImm, Names, Addresses, Grown, OneFixup;
      if |calls| < MAXCFX {
        LinkFixed(fn);
      } else {
        LinkLost(fn);
      }
    }

    method LinkFixed(fn: nat)
      requires Valid() && fn < |p.funcs| && |calls| < MAXCFX
      modifies this
      ensures Did(Use(true, LoadImm(9, Entry()[fn]), Counts(0, 0, 1)))
    {
      hide Patched, WordOf, Within, LoadImm, Names, Words, AddressOf, Lost, Addresses, InRange;
      ghost var code0, was, c := code, spec, CallFix(|code|, fn);
      ghost var load := LoadImm(9, Entry()[fn]);
      var site := |code|;
      if Status().Silent? { LostLink(gap, code0, was, load, fixes, calls, c, Entry()); }
      if Status().Good? { InRangeCall(fixes, calls, c, |goal|); }
      LoadConst(9, 0);
      WordsCat(was, LoadImm(9, 0));
      WordsCat(was, load);
      if Status().Good? {
        PatchedCall(code, fixes, goal, calls, c, Entry());
        assert Words(spec)[..site] == Words(was);
      }
      spec := was + load;
      calls := calls + [CallFix(site, fn)];
    }

    method LinkLost(fn: nat)
      requires Valid() && fn < |p.funcs| && |calls| >= MAXCFX
      modifies this
      ensures Did(Use(true, LoadImm(9, Entry()[fn]), Counts(0, 0, 1)))
    {
      hide Patched, WordOf, Within, LoadImm, Names, Words, AddressOf, Lost, Addresses, InRange;
      ghost var code0, was, load := code, spec, LoadImm(9, Entry()[fn]);
      if Status().Silent? { LostAppend(gap, code0, Words(LoadImm(9, 0)), was, load, fixes, calls, Entry()); }
      if Status().Good? { CallLost(code0, was, fn, fixes, calls, Entry(), |goal|); }
      LoadConst(9, 0);
      spec := was + load;
      gap := if dropped then gap else Span(|code0|, |code0| + 4);
      dropped := true;
    }

    /** The function a name refers to; the first of that name. */
    method FindFunc(name: string) returns (j: int)
      ensures j == Find(p.funcs, name, 0)
    {
      j := 0;
      while j < |p.funcs|
        invariant 0 <= j <= |p.funcs| && Find(p.funcs, name, 0) == Find(p.funcs, name, j)
      {
        if p.funcs[j].name == name {
          return;
        }
        j := j + 1;
      }
      j := -1;
    }

    method PopAll(n: nat)
      requires Valid()
      modifies this
      ensures Did(Ins(PopArgs(n)))
    {
      hide Patched, Charge, WordOf, Valid, Status, Within, Names, Cat, Grown, OneFixup;
      ghost var s, cap := Status(), Cap();
      var i := n;
      while i > 0
        invariant 0 <= i <= n && Valid() && Kept() && open == old(open)
        invariant Charge(Status(), Ins(PopArgs(i)), cap) == Charge(s, Ins(PopArgs(n)), cap)
      {
        ghost var s1 := Status();
        i := i - 1;
        Emit(Pop(i));
        ChargeCat(s1, Ins([Pop(i)]), Ins(PopArgs(i)), cap);
        assert Cat(Ins([Pop(i)]), Ins(PopArgs(i))) == Ins(PopArgs(i + 1)) by { InsCat([Pop(i)], PopArgs(i)); }
      }
      StatusWithin();
      ChargeNothing(Status(), cap);
    }

    method GenCall(name: string, args: Args)
      requires Valid()
      modifies this
      ensures Did(ExprUse(Call(name, args), K(), p))
      decreases args, 1
    {
      hide Patched, Charge, WordOf, Valid, Status, Within, Names, Cat, ExprUse, ArgsUse, LoadImm, PopArgs, AddressOf, Known, CallTarget, Grown, OneFixup;
      ghost var s, k, cap := Status(), K(), Cap();
      var argc := args.Length();
      if argc > 8 {
        Fail();
        argc := 8;
      }
      ghost var s1 := Status();
      assert argc == args.Length() || s1 == Bad;
      GenArgs(args, argc);
      PopAll(argc);
      ghost var u := Join(s1, ArgsUse(args, k, p), Ins(PopArgs(argc)), cap);
      var j := FindFunc(name);
      NotKnown(name, args, k, p);
      ghost var t := CallTarget(name, k);
      if j >= 0 {
        OwnTarget(pl, p, k, name);
        Link(j);
        u := Join(s1, u, Use(true, LoadImm(9, t), Counts(0, 0, 1)), cap);
      } else if name in p.externs && p.externs[name] != 0 {
        KernelTarget(pl, p, k, name);
        LoadConst(9, p.externs[name]);
        u := Join(s1, u, Ins(LoadImm(9, t)), cap);
      } else {
        Fail();
        ChargeRefused(s, ExprUse(Call(name, args), k, p), cap);
        return;
      }
      Emit(Blr(9));
      u := Join(s1, u, Ins([Blr(9)]), cap);
      ChargeRefused(s1, u, cap);
      if args.Length() > 8 {
        ChargeRefused(s, ExprUse(Call(name, args), k, p), cap);
      } else {
        CallSteps(name, args, k, p);
      }
    }

    method GenExpr(e: Expr)
      requires Valid()
      modifies this
      ensures Did(ExprUse(e, K(), p))
      ensures e.Num? && !old(failed) ==> Grew(4)
      decreases e, 2
    {
      hide Patched, Charge, WordOf, Valid, Status, Within, LoadImm, Names, Cat, Ins, AndUse, OrUse, BinaryUse, AssignUse, LoadCode, AddressUse, ExprUse;
      if failed {
        StatusFailed();
        return;
      }
      ghost var s, k, cap := Status(), K(), Cap();
      ExprSteps(e, k, p);
      match e {
        case Num(v) => LoadConst(0, v);
        case StrLit(a) => LoadConst(0, a);
        case VarRef(_, ty) => GenRead(e, ty);
        case Assign(d, x) => GenAssign(d, x);
        case Deref(q, ty) =>
          GenExpr(q);
          GenLoad(ty);
          ghost var u := Join(s, ExprUse(q, k, p), Ins(LoadCode(ty)), cap);
        case Member(_, _, ty) => GenRead(e, ty);
        case AddrOf(o) => GenAddr(o);
        case Neg(x) =>
          GenExpr(x);
          Emit(SubReg(0, R31, 0));
          ghost var u := Join(s, ExprUse(x, k, p), Ins([SubReg(0, R31, 0)]), cap);
        case Not(x) =>
          GenExpr(x);
          Pair(CmpZero(0), Csinc(0, Invert(EQ)));
          ghost var u := Join(s, ExprUse(x, k, p), Ins([CmpZero(0), Csinc(0, Invert(EQ))]), cap);
        case LogAnd(x, y) => GenLogAnd(x, y);
        case LogOr(x, y) => GenLogOr(x, y);
        case Binary(op, x, y) => GenBinary(op, x, y);
        case Call(f, args) => GenCall(f, args);
      }
    }

    // ---------- statements ----------

    /** The innermost targets stand for the exits `x`. */
    ghost predicate Aimed(x: Exits)
      reads this
    {
      && (brk != [] ==> Points(brk[|brk| - 1], x.brk))
      && (cont != [] ==> Points(cont[|cont| - 1], x.cont))
      && Points(ret, x.ret)
    }

    /** The labels `labs` are still to be placed, at `at`. */
    ghost predicate Awaits(labs: seq<Lab>, at: seq<int>)
      reads this
    {
      Marked(labs, at, goal) && Elems(labs) <= open
    }

    /** The statement was charged and its case labels were placed, no others. */
    twostate predicate DidStmt(u: Use, labs: seq<Lab>)
      reads this
    {
      && Valid() && KeptStmt()
      && Status() == Charge(old(Status()), u, Cap())
      && (Status().Good? ==> open == old(open) - Elems(labs))
    }

    method Targets(b: seq<Lab>, c: seq<Lab>)
      requires Valid()
      modifies this
      ensures Valid() && Status() == old(Status()) && code == old(code) && goal == old(goal) && open == old(open)
      ensures brk == b && cont == c && ret == old(ret) && offs == old(offs)
      ensures over == old(over) && failed == old(failed)
    {
      hide Patched, Lost, SitesOk;
      brk, cont := b, c;
    }

    /** New innermost targets; the stack of break targets, never the shorter one, holds 64. */
    method Enter(b: seq<Lab>, c: seq<Lab>)
      requires Valid()
      modifies this
      ensures Valid() && Status() == old(Status()) && code == old(code) && goal == old(goal) && open == old(open)
      ensures brk == b && cont == c && ret == old(ret) && offs == old(offs)
      ensures failed == old(failed) && (over <==> old(over) || |b| > LOOPDEPTH)
    {
      Targets(b, c);
      if |b| > LOOPDEPTH {
        over := true;
      }
    }

    method BudgetCheck(l: Lab, ghost pos: int, ghost out: int)
      requires Valid()
      requires Status().Good? ==> pos == |code| && Points(l, out)
      modifies this
      ensures Did(TickUse(K(), p, pos, out))
    {
      hide Patched, Charge, WordOf, Valid, Status, Within, LoadImm, Names, Cat, TickUse, Grown, OneFixup;
      ghost var s, k, cap := Status(), K(), Cap();
      TickSteps(k, p, pos, out);
      if p.tick == 0 {
        StatusWithin();
        ChargeNothing(s, cap);
        return;
      }
      LoadConst(9, p.tick);
      Emit(Blr(9));
      ghost var u := Join(s, Ins(LoadImm(9, p.tick)), Ins([Blr(9)]), cap);
      EmitBranch(KCbz, 0, l, Cbz(out - (pos + 5)));
      u := Join(s, u, Jump(Cbz(out - (pos + 5))), cap);
    }

    /** A condition and the branch taken when it is 0. */
    method GenCond(e: Expr, l: Lab, ghost i: Instr)
      requires Valid()
      requires Status().Good? ==> l < |goal| && i == Cbz(goal[l] - (|code| + |ExprUse(e, K(), p).code|))
      modifies this
      ensures Did(Cat(ExprUse(e, K(), p), Jump(i)))
      decreases e, 3
    {
      hide Patched, Charge, WordOf, Valid, Status, Within, Names, Cat, ExprUse, Grown, OneFixup;
      ghost var s, k, cap := Status(), K(), Cap();
      GenExpr(e);
      ghost var u := First(s, ExprUse(e, k, p), cap);
      EmitBranch(KCbz, 0, l, i);
      u := Join(s, u, Jump(i), cap);
    }

    method GenThen(b: Stmt, labs: seq<Lab>, lelse: Lab, lend: Lab, ghost pos: int, ghost x: Exits)
      requires Valid() && b.If? && Shaped(b) && |labs| == |Cases(b.thn)|
      requires Status().Good? ==> pos == |code| && Aimed(x) && Awaits(labs, CaseAt(b.thn, K(), pos + |ExprUse(b.cond, K(), p).code| + 1))
      requires Status().Good? ==> Points(lelse, pos + |ExprUse(b.cond, K(), p).code| + StmtSize(b.thn, K()) + 2) && Points(lend, pos + StmtSize(b, K()))
      modifies this
      ensures var c := ExprUse(b.cond, K(), p);
              var pa := pos + |c.code| + 1;
              var over := B(pos + StmtSize(b, K()) - (pa + StmtSize(b.thn, K())));
              DidStmt(ThenUse(c, StmtUse(b.thn, K(), p, pa, x, brk != [], cont != []), over), labs)
      ensures Pushed(Deep(b.thn, |brk|))
      decreases b, 0
    {
      hide Patched, Charge, WordOf, Valid, Status, Within, Names, Cat, ExprUse, StmtUse, CaseAt, StmtSize, Marked, Elems, Grown, OneFixup, PlainStmt, Cases, CasesOf, Find, Deep, DeepList;
      ghost var s, k, cap := Status(), K(), Cap();
      ghost var c := ExprUse(b.cond, k, p);
      ghost var pa := pos + |c.code| + 1;
      ghost var pb := pa + StmtSize(b.thn, k) + 1;
      ghost var end := pos + StmtSize(b, k);
      ghost var a := StmtUse(b.thn, k, p, pa, x, brk != [], cont != []);
      ghost var goal0 := goal;
      IfSizes(b, k, p, pos, x, brk != [], cont != []);
      GenCond(b.cond, lelse, Cbz(|a.code| + 2));
      ghost var u := First(s, Cat(c, Jump(Cbz(|a.code| + 2))), cap);
      CatSize(c, Jump(Cbz(|a.code| + 2)));
      if Status().Good? { MarkedMore(labs, CaseAt(b.thn, k, pa), goal0, goal); }
      GenStmt(b.thn, labs, pa, x);
      u := Join(s, u, a, cap);
      EmitBranch(KB, 0, lend, B(end - (pb - 1)));
      u := Join(s, u, Jump(B(end - (pb - 1))), cap);
    }

    method GenElse(e: Maybe<Stmt>, labs: seq<Lab>, ghost pos: int, ghost x: Exits)
      requires Valid() && |labs| == if e.Just? then |Cases(e.get)| else 0
      requires e.Just? ==> Shaped(e.get)
      requires Status().Good? && e.Just? ==> pos == |code| && Aimed(x) && Awaits(labs, CaseAt(e.get, K(), pos))
      modifies this
      ensures DidStmt(OptStmtUse(e, K(), p, pos, x, brk != [], cont != []), labs)
      ensures Pushed(e.Just? && Deep(e.get, |brk|))
      decreases e, 0
    {
      hide Patched, Charge, WordOf, Valid, Status, Within, Names, Cat, StmtUse, CaseAt, Marked, Elems, Grown, OneFixup, PlainStmt;
      if e.Just? {
        GenStmt(e.get, labs, pos, x);
      } else {
        StatusWithin();
        ChargeNothing(Status(), Cap());
        assert labs == [];
        ElemsNone();
      }
    }

    /** Labels, condition and first branch of an `if`, up to where the second branch begins. */
    method GenIfHead(b: Stmt, labs: seq<Lab>, ghost pos: int, ghost x: Exits) returns (lend: Lab)
      requires Valid() && b.If? && Shaped(b) && |labs| == |Cases(b.thn)|
      requires Status().Good? ==> pos == |code| && Aimed(x) && Awaits(labs, CaseAt(b.thn, K(), pos + |ExprUse(b.cond, K(), p).code| + 1))
      modifies this
      ensures Valid() && KeptStmt()
      ensures Status() == Charge(old(Status()), Cat(Fresh(2), HeadUse(b, K(), p, pos, x, brk != [], cont != [])), Cap())
      ensures Status().Good? ==> |code| == pos + |ExprUse(b.cond, K(), p).code| + StmtSize(b.thn, K()) + 2 && Points(lend, pos + StmtSize(b, K()))
      ensures Status().Good? ==> lend !in old(open) && open == (old(open) - Elems(labs)) + {lend}
      ensures Pushed(Deep(b.thn, |brk|))
      decreases b, 1
    {
      hide Patched, Charge, WordOf, Valid, Status, Within, Names, Cat, ExprUse, StmtUse, CaseAt, StmtSize, Marked, Elems, ThenUse, Grown, OneFixup, PlainStmt;
      ghost var s, k, cap := Status(), K(), Cap();
      ghost var c := ExprUse(b.cond, k, p);
      ghost var pa := pos + |c.code| + 1;
      ghost var pb := pa + StmtSize(b.thn, k) + 1;
      ghost var goal0 := goal;
      IfSizes(b, k, p, pos, x, brk != [], cont != []);
      var lelse: Lab;
      lelse, lend := TwoLabels(pb, pos + StmtSize(b, k));
      ghost var u := First(s, Fresh(2), cap);
      if Status().Good? { MarkedMore(labs, CaseAt(b.thn, k, pa), goal0, goal); }
      GenThen(b, labs, lelse, lend, pos, x);
      u := Join(s, u, HeadUse(b, k, p, pos, x, brk != [], cont != []), cap);
      Place(lelse);
    }

    method GenIf(b: Stmt, labs: seq<Lab>, ghost pos: int, ghost x: Exits)
      requires Valid() && b.If? && Shaped(b) && |labs| == |Cases(b)|
      requires Status().Good? ==> pos == |code| && Aimed(x) && Awaits(labs, CaseAt(b, K(), pos))
      modifies this
      ensures DidStmt(StmtUse(b, K(), p, pos, x, brk != [], cont != []), labs)
      ensures Pushed(Deep(b, |brk|))
      decreases b, 2
    {
      hide Patched, Charge, WordOf, Valid, Status, Within, Names, Cat, ExprUse, StmtUse, CaseAt, StmtSize, Marked, Elems, HeadUse, OptStmtUse, Grown, OneFixup, PlainStmt;
      ghost var s, k, cap := Status(), K(), Cap();
      ghost var inB, inC := brk != [], cont != [];
      ghost var pa := pos + |ExprUse(b.cond, k, p).code| + 1;
      ghost var pb := pa + StmtSize(b.thn, k) + 1;
      ghost var goal0 := goal;
      var m := |Cases(b.thn)|;
      IfSizes(b, k, p, pos, x, inB, inC);
      ElemsSplit(labs, m);
      ghost var ca, ce := CaseAt(b.thn, k, pa), if b.els.Just? then CaseAt(b.els.get, k, pb) else [];
      if s.Good? { MarkedSplit(labs, ca, ce, goal); }
      var lend := GenIfHead(b, labs[..m], pos, x);
      ghost var u := First(s, Cat(Fresh(2), HeadUse(b, k, p, pos, x, inB, inC)), cap);
      if Status().Good? { MarkedMore(labs[m..], ce, goal0, goal); }
      GenElse(b.els, labs[m..], pb, x);
      u := Join(s, u, OptStmtUse(b.els, k, p, pb, x, inB, inC), cap);
      Place(lend);
      IfSteps(b, k, p, pos, x, inB, inC);
    }

    /** A loop or switch body, with its own break and continue targets. */
    method GenBody(b: Stmt, labs: seq<Lab>, nb: seq<Lab>, nc: seq<Lab>, ghost pos: int, ghost x: Exits)
      requires Valid() && nb != [] && Shaped(b) && |labs| == |Cases(b)|
      requires Status().Good? ==> pos == |code| && Awaits(labs, CaseAt(b, K(), pos))
      requires Status().Good? ==> Points(nb[|nb| - 1], x.brk) && (nc != [] ==> Points(nc[|nc| - 1], x.cont)) && Points(ret, x.ret)
      modifies this
      ensures DidStmt(StmtUse(b, K(), p, pos, x, true, nc != []), labs)
      ensures Pushed(|nb| > LOOPDEPTH || Deep(b, |nb|))
      decreases b, 4
    {
      hide Patched, Charge, WordOf, Valid, Status, Within, Names, Cat, ExprUse, StmtUse, CaseAt, StmtSize, Marked, Elems, Grown, OneFixup, PlainStmt;
      var b0, c0 := brk, cont;
      Enter(nb, nc);
      GenStmt(b, labs, pos, x);
      Targets(b0, c0);
    }

    /** The end of a loop: ask the guard, then jump back. */
    method LoopBack(lbegin: Lab, lend: Lab, ghost pos: int, ghost begin: int, ghost end: int)
      requires Valid()
      requires Status().Good? ==> pos == |code| && Points(lbegin, begin) && Points(lend, end) && end == pos + |TickUse(K(), p, pos, end).code| + 1
      modifies this
      ensures Did(Cat(TickUse(K(), p, pos, end), Jump(B(begin - (end - 1)))))
    {
      hide Patched, Charge, WordOf, Valid, Status, Within, Names, Cat, TickUse, Grown, OneFixup;
      ghost var s, cap := Status(), Cap();
      ghost var g := TickUse(K(), p, pos, end);
      BudgetCheck(lend, pos, end);
      ghost var u := First(s, g, cap);
      EmitBranch(KB, 0, lbegin, B(begin - (end - 1)));
      u := Join(s, u, Jump(B(begin - (end - 1))), cap);
    }

    /** The labels of a `while` and its test. */
    method GenLoopTest(e: Expr, ghost pos: int, ghost end: int, ghost i: Instr) returns (lbegin: Lab, lend: Lab)
      requires Valid()
      requires Status().Good? ==> pos == |code| && i == Cbz(end - (pos + |ExprUse(e, K(), p).code|))
      modifies this
      ensures Valid() && Kept() && Status() == Charge(old(Status()), Cat(Cat(Fresh(2), ExprUse(e, K(), p)), Jump(i)), Cap())
      ensures Status().Good? ==>
        && Points(lbegin, pos) && Points(lend, end) && lbegin != lend
        && lbegin !in old(open) && lend !in old(open) && open == old(open) + {lend}
      decreases e, 4
    {
      hide Patched, Charge, WordOf, Valid, Status, Within, Names, Cat, ExprUse, Grown, OneFixup;
      ghost var s, k, cap := Status(), K(), Cap();
      lbegin, lend := TwoLabels(pos, end);
      ghost var u := First(s, Fresh(2), cap);
      Place(lbegin);
      GenCond(e, lend, i);
      u := Join(s, u, Cat(ExprUse(e, k, p), Jump(i)), cap);
      CatCat(Fresh(2), ExprUse(e, k, p), Jump(i));
    }

    method GenWhile(b: Stmt, labs: seq<Lab>, ghost pos: int, ghost x: Exits)
      requires Valid() && b.While? && Shaped(b) && |labs| == |Cases(b)|
      requires Status().Good? ==> pos == |code| && Aimed(x) && Awaits(labs, CaseAt(b, K(), pos))
      modifies this
      ensures DidStmt(StmtUse(b, K(), p, pos, x, brk != [], cont != []), labs)
      ensures Pushed(Deep(b, |brk|))
      decreases b, 0
    {
      hide Patched, Charge, WordOf, Valid, Status, Within, Names, Cat, ExprUse, StmtUse, CaseAt, StmtSize, Marked, Elems, TickUse, Grown, OneFixup, PlainStmt;
      ghost var s, k, cap := Status(), K(), Cap();
      ghost var c := ExprUse(b.cond, k, p);
      ghost var pb := pos + |c.code| + 1;
      ghost var end := pos + StmtSize(b, k);
      ghost var x' := Exits(end, pos, x.ret);
      ghost var a, g := StmtUse(b.body, k, p, pb, x', true, true), TickUse(k, p, pb + StmtSize(b.body, k), end);
      ghost var goal0 := goal;
      WhileSizes(b, k, p, pos, x);
      var lbegin, lend := GenLoopTest(b.cond, pos, end, Cbz(end - (pb - 1)));
      ghost var u := First(s, Cat(Cat(Fresh(2), c), Jump(Cbz(end - (pb - 1)))), cap);
      CatSizes(Fresh(2), c, Jump(Cbz(end - (pb - 1))));
      if Status().Good? { MarkedMore(labs, CaseAt(b.body, k, pb), goal0, goal); }
      GenBody(b.body, labs, brk + [lend], cont + [lbegin], pb, x');
      u := Join(s, u, a, cap);
      LoopBack(lbegin, lend, pb + StmtSize(b.body, k), pos, end);
      u := Join(s, u, Cat(g, Jump(B(pos - (end - 1)))), cap);
      CatSize(g, Jump(B(pos - (end - 1))));
      Place(lend);
      CatCat(Cat(Cat(Cat(Fresh(2), c), Jump(Cbz(end - (pb - 1)))), a), g, Jump(B(pos - (end - 1))));
      WhileSteps(b, k, p, pos, x, brk != [], cont != []);
    }

    method GenTest(e: Maybe<Expr>, l: Lab, ghost i: Instr)
      requires Valid()
      requires Status().Good? && e.Just? ==> l < |goal| && i == Cbz(goal[l] - (|code| + |ExprUse(e.get, K(), p).code|))
      modifies this
      ensures Did(TestUse(e, K(), p, i))
      decreases e, 0
    {
      hide Patched, Charge, WordOf, Valid, Status, Within, Names, Cat, ExprUse, StmtUse, CaseAt, StmtSize, Marked, Elems, Grown, OneFixup, PlainStmt;
      if e.Just? {
        GenCond(e.get, l, i);
      } else {
        StatusWithin();
        ChargeNothing(Status(), Cap());
      }
    }

    method GenInc(e: Maybe<Expr>)
      requires Valid()
      modifies this
      ensures Did(OptUse(e, K(), p))
      decreases e, 0
    {
      hide Patched, Charge, WordOf, Valid, Status, Within, Names, Cat, ExprUse, StmtUse, CaseAt, StmtSize, Marked, Elems, Grown, OneFixup, PlainStmt;
      if e.Just? {
        GenExpr(e.get);
      } else {
        StatusWithin();
        ChargeNothing(Status(), Cap());
      }
    }

    /** From the test of a `for` to its closing jump, all three labels known. */
    method GenForLoop(b: Stmt, labs: seq<Lab>, lbegin: Lab, lcont: Lab, lend: Lab, ghost pos: int, ghost x: Exits)
      requires Valid() && b.For? && Shaped(b) && |labs| == |Cases(b)|
      requires Status().Good? ==> ForTestAt(b, K(), pos) == |code| && Points(ret, x.ret) && Awaits(labs, CaseAt(b, K(), pos))
      requires Status().Good? ==> Points(lbegin, ForTestAt(b, K(), pos)) && Points(lcont, ForIncAt(b, K(), pos)) && Points(lend, pos + StmtSize(b, K()))
      requires Status().Good? ==> lcont in open && lcont !in labs
      modifies this
      ensures Valid() && KeptStmt()
      ensures Status() == Charge(old(Status()), ForLoopUse(b, K(), p, pos, x), Cap())
      ensures Status().Good? ==> open == old(open) - Elems(labs) - {lcont}
      ensures Pushed(|brk| >= LOOPDEPTH || Deep(b.body, |brk| + 1))
      decreases b, 0
    {
      hide Patched, Charge, WordOf, Valid, Status, Within, Names, Cat, ExprUse, StmtUse, CaseAt, StmtSize, Marked, Elems, TickUse, ForTestAt, ForBodyAt, ForIncAt, TestUse, OptUse, Grown, OneFixup, PlainStmt;
      ghost var s, k, cap := Status(), K(), Cap();
      ghost var pc, pb, pi, end := ForTestAt(b, k, pos), ForBodyAt(b, k, pos), ForIncAt(b, k, pos), pos + StmtSize(b, k);
      ghost var x' := Exits(end, pi, x.ret);
      ghost var t, a, n := TestUse(b.test, k, p, Cbz(end - (pb - 1))), StmtUse(b.body, k, p, pb, x', true, true), OptUse(b.inc, k, p);
      ghost var g := TickUse(k, p, pi + |n.code|, end);
      ghost var goal0 := goal;
      ForSizes(b, k, p, pos, x);
      NotIn(labs, lcont);
      GenTest(b.test, lend, Cbz(end - (pb - 1)));
      ghost var u := First(s, t, cap);
      if Status().Good? { MarkedMore(labs, CaseAt(b.body, k, pb), goal0, goal); }
      GenBody(b.body, labs, brk + [lend], cont + [lcont], pb, x');
      u := Join(s, u, a, cap);
      Place(lcont);
      GenInc(b.inc);
      u := Join(s, u, n, cap);
      LoopBack(lbegin, lend, pi + |n.code|, pc, end);
      u := Join(s, u, Cat(g, Jump(B(pc - (end - 1)))), cap);
      CatCat(Cat(Cat(t, a), n), g, Jump(B(pc - (end - 1))));
    }

    /** Labels and initialiser of a `for`, up to where the test begins. */
    method GenForStart(b: Stmt, ghost pos: int, ghost x: Exits) returns (lbegin: Lab, lcont: Lab, lend: Lab)
      requires Valid() && b.For? && Shaped(b)
      requires Status().Good? ==> pos == |code| && Aimed(x)
      modifies this
      ensures Valid() && KeptStmt()
      ensures Status() == Charge(old(Status()), Cat(Fresh(3), OptStmtUse(b.init, K(), p, pos, x, brk != [], cont != [])), Cap())
      ensures Status().Good? ==> |code| == ForTestAt(b, K(), pos) && Points(lbegin, ForTestAt(b, K(), pos))
      ensures Status().Good? ==> Points(lcont, ForIncAt(b, K(), pos)) && Points(lend, pos + StmtSize(b, K()))
      ensures Status().Good? ==> lcont != lend && lcont !in old(open) && lend !in old(open) && open == old(open) + {lcont, lend}
      ensures Pushed(b.init.Just? && Deep(b.init.get, |brk|))
      decreases b, 0
    {
      hide Patched, Charge, WordOf, Valid, Status, Within, Names, Cat, ExprUse, StmtUse, CaseAt, StmtSize, Marked, Elems, OptStmtUse, ForTestAt, ForBodyAt, ForIncAt, ForLoopUse, Grown, OneFixup, PlainStmt;
      ghost var s, k, cap := Status(), K(), Cap();
      ForInitSize(b, k, p, pos, x, brk != [], cont != []);
      lbegin, lcont, lend := ThreeLabels(ForTestAt(b, k, pos), ForIncAt(b, k, pos), pos + StmtSize(b, k));
      ghost var u := First(s, Fresh(3), cap);
      if Status().Good? && b.init.Just? { MarkedNone(CaseAt(b.init.get, k, pos), goal); }
      ElemsNone();
      GenElse(b.init, [], pos, x);
      u := Join(s, u, OptStmtUse(b.init, k, p, pos, x, brk != [], cont != []), cap);
      Place(lbegin);
    }

    method GenFor(b: Stmt, labs: seq<Lab>, ghost pos: int, ghost x: Exits)
      requires Valid() && b.For? && Shaped(b) && |labs| == |Cases(b)|
      requires Status().Good? ==> pos == |code| && Aimed(x) && Awaits(labs, CaseAt(b, K(), pos))
      modifies this
      ensures DidStmt(StmtUse(b, K(), p, pos, x, brk != [], cont != []), labs)
      ensures Pushed(Deep(b, |brk|))
      decreases b, 1
    {
      hide Patched, Charge, WordOf, Valid, Status, Within, Names, Cat, ExprUse, StmtUse, CaseAt, StmtSize, Marked, Elems, OptStmtUse, ForTestAt, ForBodyAt, ForIncAt, ForLoopUse, Grown, OneFixup, PlainStmt;
      ghost var s, k, cap := Status(), K(), Cap();
      ghost var i := OptStmtUse(b.init, k, p, pos, x, brk != [], cont != []);
      ghost var goal0 := goal;
      ForInitSize(b, k, p, pos, x, brk != [], cont != []);
      var lbegin, lcont, lend := GenForStart(b, pos, x);
      ghost var u := First(s, Cat(Fresh(3), i), cap);
      if Status().Good? { MarkedMore(labs, CaseAt(b, k, pos), goal0, goal); }
      NotIn(labs, lcont);
      GenForLoop(b, labs, lbegin, lcont, lend, pos, x);
      u := Join(s, u, ForLoopUse(b, k, p, pos, x), cap);
      CatSize(Fresh(3), i);
      Place(lend);
      ForAll(b, k, p, pos, x, brk != [], cont != []);
    }

    /** A label for one case, and its test unless it is the default. */
    method GenCase(c: Label, ghost at: int, ghost pos: int) returns (l: Lab)
      requires Valid()
      requires Status().Good? ==> pos == |code|
      modifies this
      ensures Valid() && Kept()
      ensures Status() == Charge(old(Status()), CaseUse(c, at, pos), Cap())
      ensures Status().Good? ==> Points(l, at) && l !in old(open) && open == old(open) + {l} && |code| == pos + |CaseUse(c, at, pos).code|
    {
      hide Patched, Charge, WordOf, Valid, Status, Within, Names, Cat, LoadImm, Grown, OneFixup;
      ghost var s, cap := Status(), Cap();
      l := NewLabel(at);
      ghost var u := First(s, Fresh(1), cap);
      if c.Default? {
        return;
      }
      LoadConst(1, c.val);
      u := Join(s, u, Ins(LoadImm(1, c.val)), cap);
      Emit(CmpReg(0, 1));
      u := Join(s, u, Ins([CmpReg(0, 1)]), cap);
      EmitBranch(KBcond, EQ, l, Bcond(EQ, at - (pos + 5)));
      u := Join(s, u, Jump(Bcond(EQ, at - (pos + 5))), cap);
    }

    /** Labels and tests for all the cases, from the last one back. */
    method GenChain(cs: seq<Label>, ghost at: seq<int>, ghost pos: int) returns (labs: seq<Lab>, def: Maybe<Lab>)
      requires Valid() && |at| == |cs|
      requires Status().Good? ==> pos == |code|
      modifies this
      ensures Valid() && Kept() && |labs| == |cs|
      ensures Status() == Charge(old(Status()), ChainUse(cs, at, pos, |cs|), Cap())
      ensures Status().Good? ==> Marked(labs, at, goal) && Elems(labs) !! old(open) && open == old(open) + Elems(labs)
      ensures def == if DefaultAt(cs, 0) < 0 then Nothing else Just(labs[DefaultAt(cs, 0)])
    {
      hide Patched, Charge, WordOf, Valid, Status, Within, Names, Cat, ExprUse, StmtUse, CaseAt, StmtSize, Marked, Elems, ChainUse, CaseUse, Grown, OneFixup, PlainStmt;
      ghost var s, cap := Status(), Cap();
      ghost var q := pos;
      var i := |cs|;
      labs, def := [], Nothing;
      assert at[i..] == [];
      MarkedNone([], goal);
      ElemsNone();
      while i > 0
        invariant 0 <= i <= |cs| && Valid() && Kept() && |labs| == |cs| - i
        invariant Status().Good? ==> s.Good? && q == |code|
        invariant Charge(Status(), ChainUse(cs, at, q, i), cap) == Charge(s, ChainUse(cs, at, pos, |cs|), cap)
        invariant Status().Good? ==> Marked(labs, at[i..], goal) && Elems(labs) !! old(open) && open == old(open) + Elems(labs)
        invariant def == if DefaultAt(cs, i) < 0 then Nothing else Just(labs[DefaultAt(cs, i) - i])
      {
        ghost var s1, goal1 := Status(), goal;
        i := i - 1;
        var l := GenCase(cs[i], at[i], q);
        ghost var v := First(s1, CaseUse(cs[i], at[i], q), cap);
        if Status().Good? {
          MarkedMore(labs, at[i + 1..], goal1, goal);
          MarkedCons(l, labs, at[i], at[i + 1..], goal);
          assert at[i..] == [at[i]] + at[i + 1..];
        }
        ElemsCons(l, labs);
        v := Join(s1, CaseUse(cs[i], at[i], q), ChainUse(cs, at, q + |v.code|, i), cap);
        ChainSteps(cs, at, q, i + 1);
        q := q + |CaseUse(cs[i], at[i], q).code|;
        labs := [l] + labs;
        if cs[i].Default? {
          def := Just(l);
        }
      }
      assert at[0..] == at;
      ChainNone(cs, at, q);
      StatusWithin();
      ChargeNothing(Status(), cap);
    }

    /** Value and dispatch of a switch: what its body is entered with. */
    method GenDispatch(b: Stmt, ghost pos: int) returns (lend: Lab, labs: seq<Lab>)
      requires Valid() && b.Switch?
      requires Status().Good? ==> pos == |code|
      modifies this
      ensures Valid() && Kept() && |labs| == |Cases(b.body)|
      ensures Status() == Charge(old(Status()), DispatchUse(b, K(), p, pos), Cap())
      ensures Status().Good? ==> |code| == pos + SwitchHead(b.cond, b.body, K()) && Points(lend, pos + StmtSize(b, K()))
      ensures Status().Good? ==> Marked(labs, CaseAt(b.body, K(), |code|), goal)
      ensures Status().Good? ==> lend !in old(open) && lend !in Elems(labs) && Elems(labs) !! old(open) && open == old(open) + {lend} + Elems(labs)
      decreases b, 0
    {
      hide Patched, Charge, WordOf, Valid, Status, Within, Names, Cat, ExprUse, StmtUse, CaseAt, StmtSize, Marked, Elems, ChainUse, SwitchHead, Grown, OneFixup, PlainStmt, Cases, DefaultAt, Matching;
      ghost var s, k, cap := Status(), K(), Cap();
      ghost var c := ExprUse(b.cond, k, p);
      ghost var pb, end := pos + SwitchHead(b.cond, b.body, k), pos + StmtSize(b, k);
      var cs := Cases(b.body);
      ghost var at := CaseAt(b.body, k, pb);
      ghost var h := ChainUse(cs, at, pos + |c.code|, |cs|);
      ghost var j := B(Otherwise(cs, at, end) - (pb - 1));
      SwitchSizes(b, k, p, pos, Exits(0, 0, 0), false);
      lend := NewLabel(end);
      ghost var u := First(s, Fresh(1), cap);
      GenExpr(b.cond);
      u := Join(s, u, c, cap);
      var def: Maybe<Lab>;
      labs, def := GenChain(cs, at, pos + |c.code|);
      u := Join(s, u, h, cap);
      if Status().Good? && def.Just? { MarkedAt(labs, at, goal, DefaultAt(cs, 0)); }
      EmitBranch(KB, 0, if def.Just? then def.get else lend, j);
      u := Join(s, u, Jump(j), cap);
    }

    method GenSwitch(b: Stmt, ghost pos: int, ghost x: Exits)
      requires Valid() && b.Switch? && Shaped(b)
      requires Status().Good? ==> pos == |code| && Aimed(x)
      modifies this
      ensures DidStmt(StmtUse(b, K(), p, pos, x, brk != [], cont != []), [])
      ensures Pushed(Deep(b, |brk|))
      decreases b, 1
    {
      hide Patched, Charge, WordOf, Valid, Status, Within, Names, Cat, ExprUse, StmtUse, CaseAt, StmtSize, Marked, Elems, DispatchUse, SwitchHead, Grown, OneFixup, PlainStmt, Cases, CasesOf, Find;
      ghost var s, k, cap := Status(), K(), Cap();
      ghost var pb, end := pos + SwitchHead(b.cond, b.body, k), pos + StmtSize(b, k);
      ghost var x' := Exits(end, x.cont, x.ret);
      SwitchSizes(b, k, p, pos, x, cont != []);
      ElemsNone();
      var lend, labs := GenDispatch(b, pos);
      ghost var u := First(s, DispatchUse(b, k, p, pos), cap);
      GenBody(b.body, labs, brk + [lend], cont, pb, x');
      u := Join(s, u, StmtUse(b.body, k, p, pb, x', true, cont != []), cap);
      Place(lend);
      SwitchSteps(b, k, p, pos, x, brk != [], cont != []);
    }

    /** The next statement of a list. */
    method GenNext(ss: Stmts, labs: seq<Lab>, ghost pos: int, ghost x: Exits)
      requires Valid() && ss.Then? && AllShaped(ss) && |labs| == |CasesOf(ss)|
      requires Status().Good? ==> pos == |code| && Aimed(x) && Awaits(labs, CasesAt(ss, K(), pos))
      modifies this
      ensures Valid() && KeptStmt()
      ensures var m, next := |Cases(ss.first)|, pos + StmtSize(ss.first, K());
              && Elems(labs) == Elems(labs[..m]) + Elems(labs[m..])
              && (Status().Good? ==>
                    && old(Status()).Good? && next == |code| && Awaits(labs[m..], CasesAt(ss.rest, K(), next))
                    && open == old(open) - Elems(labs[..m]))
              && Charge(Status(), ListUse(ss.rest, K(), p, next, x, brk != [], cont != []), Cap())
                 == Charge(old(Status()), ListUse(ss, K(), p, pos, x, brk != [], cont != []), Cap())
      ensures PlainStmt(ss.first, old(Look()), Look(), Cap())
      ensures Pushed(Deep(ss.first, |brk|))
      decreases ss, -1
    {
      hide Patched, Charge, WordOf, Valid, Status, Within, Names, Cat, ExprUse, StmtUse, CaseAt, StmtSize, Marked, Elems, ListUse, CasesAt, PlainStmt;
      var first, m := ss.first, |Cases(ss.first)|;
      ghost var s, k, cap, goal0 := Status(), K(), Cap(), goal;
      ghost var inB, inC := brk != [], cont != [];
      ghost var u, size := StmtUse(first, k, p, pos, x, inB, inC), StmtSize(first, k);
      ghost var here, later := CaseAt(first, k, pos), CasesAt(ss.rest, k, pos + size);
      ListSizes(ss, k, p, pos, x, inB, inC);
      ElemsSplit(labs, m);
      if s.Good? { MarkedSplit(labs, here, later, goal); }
      GenStmt(first, labs[..m], pos, x);
      ghost var v := First(s, u, cap);
      if Status().Good? { MarkedMore(labs[m..], later, goal0, goal); }
      v := Join(s, v, ListUse(ss.rest, k, p, pos + size, x, inB, inC), cap);
      ListSteps(ss, k, p, pos, x, inB, inC);
    }

    /** All statements of a list in turn. */
    method GenAll(ss: Stmts, labs: seq<Lab>, ghost pos: int, ghost x: Exits)
      requires Valid() && AllShaped(ss) && |labs| == |CasesOf(ss)|
      requires Status().Good? ==> pos == |code| && Aimed(x) && Awaits(labs, CasesAt(ss, K(), pos))
      modifies this
      ensures Valid() && KeptStmt() && (Status().Good? ==> open == old(open) - Elems(labs))
      ensures Charge(Status(), Ins([]), Cap()) == Charge(old(Status()), ListUse(ss, K(), p, pos, x, brk != [], cont != []), Cap())
      ensures PlainList(ss, Done, old(Look()), Look(), Cap())
      ensures OpenedSoFar(ss, Done, |brk|, old(Marks()), Marks())
      decreases ss, 0
    {
      hide Patched, Charge, WordOf, Valid, Status, Within, Names, Cat, ExprUse, StmtUse, CaseAt, StmtSize, Marked, Elems, ListUse, CasesAt, Ins, PlainList, PlainStmt, Opened, OpenedSoFar, Deep, DeepList, Shaped, AllShaped, Cases, CasesOf;
      ghost var s, k, cap := Status(), K(), Cap();
      ghost var inB, inC := brk != [], cont != [];
      ghost var look, marks := Look(), Marks();
      var rest, todo := ss, labs;
      ghost var q, done := pos, {};
      PlainStart(ss, look, cap);
      OpenedEnds(ss, |brk|, marks, marks);
      while rest.Then?
        decreases rest
        invariant (rest == ss || rest < ss) && AllShaped(rest) && |todo| == |CasesOf(rest)|
        invariant Valid() && KeptStmt() && K() == k && Elems(labs) == done + Elems(todo)
        invariant Status().Good? ==> s.Good? && q == |code| && Awaits(todo, CasesAt(rest, k, q)) && open == old(open) - done
        invariant PlainList(ss, rest, look, Look(), cap)
        invariant OpenedSoFar(ss, rest, |brk|, marks, Marks())
        invariant Charge(Status(), ListUse(rest, k, p, q, x, inB, inC), cap) == Charge(s, ListUse(ss, k, p, pos, x, inB, inC), cap)
      {
        var m := |Cases(rest.first)|;
        ListShape(rest);
        ghost var was, was' := Look(), Marks();
        GenNext(rest, todo, q, x);
        PlainStep(ss, rest, look, was, Look(), cap);
        OpenedStep(ss, rest, |brk|, marks, was', Marks());
        q, done := q + StmtSize(rest.first, k), done + Elems(todo[..m]);
        rest, todo := rest.rest, todo[m..];
      }
      ElemsNone();
      ListShape(rest);
      assert todo == [];
      ListSteps(rest, k, p, q, x, inB, inC);
    }

    method GenList(ss: Stmts, labs: seq<Lab>, ghost pos: int, ghost x: Exits)
      requires Valid() && AllShaped(ss) && |labs| == |CasesOf(ss)|
      requires Status().Good? ==> pos == |code| && Aimed(x) && Awaits(labs, CasesAt(ss, K(), pos))
      modifies this
      ensures DidStmt(ListUse(ss, K(), p, pos, x, brk != [], cont != []), labs)
      ensures PlainList(ss, Done, old(Look()), Look(), Cap())
      ensures Pushed(DeepList(ss, |brk|))
      decreases ss, 1
    {
      hide Patched, Charge, WordOf, Valid, Status, Within, Names, Elems, ListUse, CasesAt, PlainList, Opened, OpenedSoFar, DeepList;
      ghost var marks := Marks();
      GenAll(ss, labs, pos, x);
      StatusWithin();
      ChargeNothing(Status(), Cap());
      OpenedEnds(ss, |brk|, marks, Marks());
    }

    method GenReturn(b: Stmt, ghost pos: int, ghost x: Exits)
      requires Valid() && b.Return?
      requires Status().Good? ==> pos == |code| && Points(ret, x.ret)
      modifies this
      ensures Valid() && Kept() && (Status().Good? ==> open == old(open))
      ensures Status() == Charge(old(Status()), Cat(ExprUse(b.e, K(), p), Jump(B(x.ret - (pos + |ExprUse(b.e, K(), p).code|)))), Cap())
      ensures PlainStmt(b, old(Look()), Look(), Cap())
      decreases b, -1
    {
      hide Patched, Charge, WordOf, Valid, Status, Within, Names, Cat, ExprUse;
      ghost var s, c, cap := Status(), ExprUse(b.e, K(), p), Cap();
      GenExpr(b.e);
      ghost var u := First(s, c, cap);
      EmitBranch(KB, 0, ret, B(x.ret - (pos + |c.code|)));
      u := Join(s, u, Jump(B(x.ret - (pos + |c.code|))), cap);
    }

    /** `return`, `break` and `continue`. */
    method GenJump(b: Stmt, ghost pos: int, ghost x: Exits)
      requires Valid() && (b.Return? || b.Break? || b.Continue?)
      requires Status().Good? ==> pos == |code| && Aimed(x)
      modifies this
      ensures DidStmt(StmtUse(b, K(), p, pos, x, brk != [], cont != []), [])
      ensures PlainStmt(b, old(Look()), Look(), Cap())
      ensures Pushed(false)
      decreases b, 0
    {
      hide Patched, Charge, WordOf, Valid, Status, Within, Names, Cat, ExprUse, StmtUse, CaseAt, StmtSize, Marked, Elems;
      ghost var s, k, cap := Status(), K(), Cap();
      ElemsNone();
      JumpSteps(b, k, p, pos, x, brk != [], cont != []);
      ChargeRefused(s, StmtUse(b, k, p, pos, x, brk != [], cont != []), cap);
      match b {
        case Return(_) => GenReturn(b, pos, x);
        case Break => if brk != [] { EmitBranch(KB, 0, brk[|brk| - 1], B(x.brk - pos)); } else { Fail(); }
        case Continue => if cont != [] { EmitBranch(KB, 0, cont[|cont| - 1], B(x.cont - pos)); } else { Fail(); }
      }
    }

    /** A case label, placed here, and what it labels. */
    method GenLabelled(b: Stmt, labs: seq<Lab>, ghost pos: int, ghost x: Exits)
      requires Valid() && b.Case? && Shaped(b) && |labs| == |Cases(b)|
      requires Status().Good? ==> pos == |code| && Aimed(x) && Awaits(labs, CaseAt(b, K(), pos))
      modifies this
      ensures DidStmt(StmtUse(b, K(), p, pos, x, brk != [], cont != []), labs)
      ensures Pushed(Deep(b, |brk|))
      decreases b, 0
    {
      hide Patched, Charge, WordOf, Valid, Status, Within, Names, Cat, ExprUse, StmtUse, CaseAt, StmtSize, Marked, Elems, Grown, OneFixup, PlainStmt;
      StmtSteps(b, K(), p, pos, x, brk != [], cont != []);
      ghost var at := CaseAt(b.inner, K(), pos);
      if Status().Good? {
        MarkedSplit(labs, [pos], at, goal);
        MarkedAt(labs, [pos] + at, goal, 0);
      }
      ElemsSplit(labs, 1);
      ElemsOne(labs[0]);
      assert labs[..1] == [labs[0]];
      Place(labs[0]);
      GenStmt(b.inner, labs[1..], pos, x);
    }

    method GenStmt(b: Stmt, labs: seq<Lab>, ghost pos: int, ghost x: Exits)
      requires Valid() && Shaped(b) && |labs| == |Cases(b)|
      requires Status().Good? ==> pos == |code| && Aimed(x) && Awaits(labs, CaseAt(b, K(), pos))
      modifies this
      ensures DidStmt(StmtUse(b, K(), p, pos, x, brk != [], cont != []), labs)
      ensures PlainStmt(b, old(Look()), Look(), Cap())
      ensures Pushed(Deep(b, |brk|))
      decreases b, 3
    {
      hide Patched, Charge, WordOf, Valid, Status, Within, Names, Cat, ExprUse, StmtUse, CaseAt, StmtSize, Marked, Elems;
      if failed {
        StatusFailed();
        return;
      }
      ElemsNone();
      assert labs == [] || b.If? || b.While? || b.For? || b.Case? || b.Block?;
      StmtSteps(b, K(), p, pos, x, brk != [], cont != []);
      match b {
        case ExprStmt(e) => GenExpr(e);
        case Return(_) => GenJump(b, pos, x);
        case If(_, _, _) => GenIf(b, labs, pos, x);
        case While(_, _) => GenWhile(b, labs, pos, x);
        case For(_, _, _, _) => GenFor(b, labs, pos, x);
        case Switch(_, _) => GenSwitch(b, pos, x);
        case Case(_, _) => GenLabelled(b, labs, pos, x);
        case Break => GenJump(b, pos, x);
        case Continue => GenJump(b, pos, x);
        case Block(ss) => GenList(ss, labs, pos, x);
      }
    }

    // ---------- functions ----------

    /** Frame layout: each local below the one before it, 8-byte aligned. */
    method AssignOffsets(locals: seq<Ty>) returns (r: seq<nat>, frame: nat)
      ensures r == Offsets(locals) && frame == FrameSize(locals)
    {
      var off: nat := 0;
      r := [];
      for i := 0 to |locals|
        invariant |r| == i && off == Offset(locals, i)
        invariant forall j :: 0 <= j < i ==> r[j] == Offset(locals, j + 1)
      {
        off := AlignUp(off + locals[i].Size(), 8);
        r := r + [off];
      }
      frame := AlignUp(off, 16);
    }

    method Reserve(frame: nat)
      requires Valid()
      modifies this
      ensures Did(Ins(ReserveCode(frame))) && (frame == 0 ==> Grew(0))
    {
      hide Patched, Charge, WordOf, Valid, Status, Within, LoadImm, Names, Cat, Ins, ReserveCode;
      ghost var s, cap := Status(), Cap();
      ReserveShape(frame);
      if frame == 0 {
        StatusWithin();
        ChargeNothing(s, cap);
      } else if frame <= 0xFFF {
        Emit(SubImm(R31, R31, frame));
      } else {
        LoadConst(9, Wrap(frame));
        Emit(SubReg(R31, R31, 9));
        ghost var u := Join(s, Ins(LoadImm(9, Wrap(frame))), Ins([SubReg(R31, R31, 9)]), cap);
        InsCat(LoadImm(9, Wrap(frame)), [SubReg(R31, R31, 9)]);
      }
    }

    method SpillParam(slot: Slot, i: nat)
      requires Valid()
      modifies this
      ensures Did(Ins(SpillOne(slot, i)))
    {
      hide Patched, Charge, WordOf, Valid, Status, Within, Names, Cat, Ins, SlotAddress, Grown, OneFixup;
      ghost var s, cap := Status(), Cap();
      var st := if slot.ty.Size() == 1 then Strb(i, 9) else Str(i, 9);
      SlotAt(9, slot.off);
      Emit(st);
      ghost var u := Join(s, Ins(SlotAddress(9, Wrap(slot.off))), Ins([st]), cap);
      InsCat(SlotAddress(9, Wrap(slot.off)), [st]);
    }

    method Spill(slots: seq<Slot>)
      requires Valid()
      modifies this
      ensures Did(Ins(SpillCode(slots, 0))) && (slots == [] ==> Grew(0))
    {
      hide Patched, Charge, WordOf, Valid, Status, Within, Names, Cat, Ins, SpillOne, SpillCode;
      ghost var s, cap := Status(), Cap();
      for i := 0 to |slots|
        invariant Valid() && Kept() && (i == 0 ==> Grew(0))
        invariant Status().Good? ==> s.Good? && open == old(open)
        invariant Charge(Status(), Ins(SpillCode(slots, i)), cap) == Charge(s, Ins(SpillCode(slots, 0)), cap)
      {
        ghost var s1 := Status();
        SpillParam(slots[i], i);
        ghost var u := First(s1, Ins(SpillOne(slots[i], i)), cap);
        u := Join(s1, u, Ins(SpillCode(slots, i + 1)), cap);
        SpillSteps(slots, i);
      }
      SpillSteps(slots, |slots|);
      StatusWithin();
      ChargeNothing(Status(), cap);
    }

    method GenHead(f: Func, frame: nat)
      requires Valid() && frame == FrameSize(f.locals)
      modifies this
      ensures Did(Ins(HeadCode(f))) && (f.params == [] && frame == 0 ==> Grew(2))
    {
      hide Patched, Charge, WordOf, Valid, Status, Within, Names, Cat, Ins, SpillCode, ReserveCode, ParamSlots, HeadCode;
      ghost var s, cap := Status(), Cap();
      Pair(StpFrame, AddImm(FP, R31, 0));
      Reserve(frame);
      ghost var u := Join(s, Ins([StpFrame, AddImm(FP, R31, 0)]), Ins(ReserveCode(frame)), cap);
      Spill(ParamSlots(f));
      u := Join(s, u, Ins(SpillCode(ParamSlots(f), 0)), cap);
      HeadSteps(f);
    }

    /** Empty label, branch and target tables, and the function's own slots. */
    method StartFunc(o: seq<nat>)
      requires Valid() && fixes == []
      modifies this
      ensures Valid() && fixes == [] && open == {} && brk == [] && cont == [] && offs == o && goal == []
      ensures Status() == Afresh(old(Status())) && code == old(code)
      ensures failed == old(failed) && stray == old(stray) && over == old(over) && nlab == 0
    {
      hide ApplyCalls, Lost, Words, Addresses, Names, SitesOk;
      nlab, brk, cont, offs := 0, [], [], o;
      goal, open := [], {};
    }

    method SetReturn(l: Lab)
      requires Valid()
      modifies this
      ensures Valid() && Status() == old(Status()) && code == old(code) && goal == old(goal) && open == old(open)
      ensures brk == old(brk) && cont == old(cont) && offs == old(offs) && ret == l
      ensures Grew(0) && over == old(over)
    {
      hide Patched, Lost, SitesOk;
      ret := l;
    }

    /** The end of every function; the way out of `return` begins at its second word. */
    method GenTail()
      requires Valid()
      requires Status().Good? ==> ret in open && Points(ret, |code| + 1)
      modifies this
      ensures Valid() && Kept() && Grew(4)
      ensures Status() == Charge(old(Status()), TailUse(), Cap()) && (Status().Good? ==> open == old(open) - {ret})
    {
      hide Patched, Charge, WordOf, Valid, Status, Within, Names, Cat, TailUse;
      ghost var s, cap := Status(), Cap();
      Emit(Movz(0, 0));
      ghost var u := First(s, Ins([Movz(0, 0)]), cap);
      Place(ret);
      Emit(AddImm(R31, FP, 0));
      u := Join(s, u, Ins([AddImm(R31, FP, 0)]), cap);
      Emit(LdpFrame);
      u := Join(s, u, Ins([LdpFrame]), cap);
      Emit(Ret);
      u := Join(s, u, Ins([Ret]), cap);
      TailSteps();
    }

    /** The frame layout, empty tables, the label that `return` goes to, and the prologue. */
    method GenEntry(f: Func, ghost pos: int, ghost at: int)
      requires Valid() && fixes == []
      requires Status().Good? ==> pos == |code|
      modifies this
      ensures Valid() && K() == CtxFor(pl, p, f) && brk == [] && cont == [] && Pushed(false)
      ensures Status() == Charge(Afresh(old(Status())), Cat(Fresh(1), Ins(HeadCode(f))), Cap())
      ensures Status().Good? ==> |code| == pos + |HeadCode(f)| && Points(ret, at) && open == {ret}
      ensures StraightFunc(f) && !old(failed) ==>
        !failed && stray == old(stray) && fixes == [] && |code| == Fill(|old(code)|, 2, Cap())
    {
      hide Patched, Charge, WordOf, Valid, Status, Within, Names, Cat, HeadCode, Afresh, Straight;
      var o, frame := AssignOffsets(f.locals);
      StartFunc(o);
      ghost var s, cap := Status(), Cap();
      AfreshGood(old(Status()));
      var l := NewLabel(at);
      ghost var u := First(s, Fresh(1), cap);
      SetReturn(l);
      GenHead(f, frame);
      u := Join(s, u, Ins(HeadCode(f)), cap);
    }

    /** A function's code, its branches not yet resolved. */
    method GenCode(f: Func, ghost pos: int)
      requires Valid() && fixes == [] && Shaped(f.body) && Cases(f.body) == []
      requires Status().Good? ==> pos == |code|
      modifies this
      ensures Valid() && (Status().Good? ==> open == {})
      ensures Status() == Charge(Afresh(old(Status())), FuncUse(f, CtxFor(pl, p, f), p, pos), Cap())
      ensures StraightFunc(f) && !old(failed) ==>
        stray == old(stray) && |fixes| == 1 && fixes[0].site == Fill(|old(code)|, 4 * Lead(f.body.list) + 6, Cap())
      ensures Pushed(Deep(f.body, 0))
    {
      hide Patched, Charge, WordOf, Valid, Status, Within, Names, Cat, ExprUse, StmtUse, CaseAt, StmtSize, Marked, Elems, FuncUse, HeadCode, Afresh, TailUse;
      ghost var s, k, cap := Afresh(Status()), CtxFor(pl, p, f), Cap();
      ghost var pb := pos + |HeadCode(f)|;
      ghost var at := pb + StmtSize(f.body, k) + 1;
      ghost var b := StmtUse(f.body, k, p, pb, Exits(0, 0, at), false, false);
      BodySize(f.body, k, p, pb, Exits(0, 0, at));
      GenEntry(f, pos, at);
      ghost var u := First(s, Cat(Fresh(1), Ins(HeadCode(f))), cap);
      ElemsNone();
      if Status().Good? { MarkedNone(CaseAt(f.body, k, pb), goal); }
      GenStmt(f.body, [], pb, Exits(0, 0, at));
      u := Join(s, u, b, cap);
      GenTail();
      u := Join(s, u, TailUse(), cap);
      FuncSteps(f, k, p, pos);
    }

    method GenFunc(f: Func, ghost pos: int)
      requires Valid() && fixes == [] && Shaped(f.body) && Cases(f.body) == []
      requires Status().Good? ==> pos == |code|
      modifies this
      ensures Valid() && fixes == []
      ensures Afresh(Status()) == Afresh(Charge(Afresh(old(Status())), FuncUse(f, CtxFor(pl, p, f), p, pos), Cap()))
      ensures StraightFunc(f) && !old(failed) ==>
        (stray <==> old(stray) || |old(code)| + 4 * Lead(f.body.list) + 6 >= Cap())
      ensures Pushed(Deep(f.body, 0))
    {
      hide Patched, Charge, WordOf, Valid, Status, Within, Names, Cat, FuncUse, Afresh, Straight, Lead;
      StatusWithin();
      GenCode(f, pos);
      ResolveBranches();
    }

    /** Patch every recorded branch with the distance to its label, now that all are placed. */
    method ResolveBranches()
      requires Valid()
      requires Status().Good? ==> open == {}
      modifies this
      ensures Valid() && fixes == [] && Afresh(Status()) == Afresh(old(Status()))
      ensures stray <==> old(stray) || exists f :: f in old(fixes) && f.site >= Cap()
      ensures over == old(over) && failed == old(failed)
    {
      hide ApplyFixes, Patched, PatchWord, WordOf, Lost, Words, Addresses, Names, InRange, SitesOk, BranchOf;
      ghost var s, code0, n := Status(), code, |fixes|;
      if s.Good? {
        NoFixes(fixes, calls, |code|, |goal|);
        PatchedNone(code, fixes, goal, calls, Entry());
      }
      FixesStart(code, fixes, goal);
      var i := 0;
      while i < |fixes|
        invariant 0 <= i <= |fixes| && |code| == |code0| && (stray ==> oom)
        invariant stray <==> old(stray) || Beyond(fixes, i, Cap())
        invariant s.Good? ==> code == ApplyFixes(code0, fixes, goal, i)
        invariant s.Silent? ==> Lost(gap, code, spec, fixes, calls, Entry())
        modifies `code, `stray
      {
        var f := fixes[i];
        assert f in fixes;
        SiteIs(fixes, |code|, oom, Cap(), f);
        if f.site >= |code| {
          stray := true;
        }
        var w := WordOf(BranchOf(f.kind, f.cond, labOff[f.lab] - f.site));
        if s.Good? {
          PatchIs(f, goal);
          FixesNext(code0, fixes, goal, i);
        } else if s.Silent? {
          LostMisses(gap, code, spec, fixes, calls, Entry(), f, w);
        }
        code := PutWord(code, f.site, w);
        i := i + 1;
      }
      if s.Silent? { LostResolved(gap, code, spec, fixes, calls, Entry()); }
      BeyondIs(fixes, n, Cap());
      assert fixes[..n] == fixes;
      SitesNone(|code|, oom, Cap());
      fixes := [];
    }

    // ---------- programs ----------

    /** With every branch resolved, only the calls are missing, and those that were lost stay so. */
    lemma Finished()
      requires Valid() && fixes == []
      ensures var words := ApplyCalls(code, calls, Entry(), |calls|);
              && (Status().Good? ==> words == Words(spec))
              && (Status().Silent? ==>
                    && gap.lo < gap.hi <= |words| == |spec|
                    && Placeholder(words[gap.lo..gap.hi], spec[gap.lo..gap.hi], Entry()))
    {
      hide Placeholder;
      if Status().Silent? {
        CallsMiss(gap, code, calls, Entry(), |calls|);
      }
    }

    /** Fill in the address of every called function. */
    method ResolveCalls(codeOff: seq<nat>)
      requires Valid() && fixes == [] && |codeOff| == |p.funcs|
      requires forall i :: 0 <= i < |codeOff| ==> Wrap(pl.base + 4 * codeOff[i]) == Entry()[i]
      modifies this
      ensures code == old(ApplyCalls(code, calls, Entry(), |calls|))
      ensures |code| == |old(code)| && stray == old(stray) && over == old(over)
    {
      hide Put4, WordOf, LoadImm, AddressOf;
      var i := 0;
      while i < |calls|
        invariant 0 <= i <= |calls| && code == ApplyCalls(old(code), calls, Entry(), i)
        modifies `code
      {
        var c := calls[i];
        assert c in calls;
        code := Put4(code, c.site, Words(LoadImm(9, Wrap(pl.base + 4 * codeOff[c.fn]))));
        i := i + 1;
      }
    }
  }
}
