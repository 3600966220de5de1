/**
 What the generator refuses in a function body: four faults of expressions, wherever they are, and
 a `break` or `continue` with nothing around it to leave or to continue.
 */
module Acceptance {
  import opened Csyntax
  import opened Csemantics
  import opened Budget

  // ---------- faults ----------

  /** A variable, a string, a dereference or a member: something with an address. */
  predicate HasAddress(e: Expr) {
    e.VarRef? || e.StrLit? || e.Deref? || e.Member?
  }

  /** Nobody provides a function of that name. */
  predicate Undefined(name: string, p: Program) {
    (forall f :: f in p.funcs ==> f.name != name) && (name !in p.externs || p.externs[name] == 0)
  }

  /** Storing into, taking the address or a member of what has no address; too many arguments; an unknown function. */
  predicate Faulty(e: Expr, p: Program) {
    match e
    case Assign(d, _) => !HasAddress(d)
    case AddrOf(o) => !HasAddress(o)
    case Member(o, _, _) => !HasAddress(o)
    case Call(name, args) => args.Length() > 8 || Undefined(name, p)
    case _ => false
  }

  /** `x` is `e` or a part of it. */
  predicate Inside(x: Expr, e: Expr)
    decreases e
  {
    || x == e
    || match e
       case Assign(d, s) => Inside(x, d) || Inside(x, s)
       case Deref(q, _) => Inside(x, q)
       case Member(o, _, _) => Inside(x, o)
       case AddrOf(o) => Inside(x, o)
       case Neg(y) => Inside(x, y)
       case Not(y) => Inside(x, y)
       case LogAnd(y, z) => Inside(x, y) || Inside(x, z)
       case LogOr(y, z) => Inside(x, y) || Inside(x, z)
       case Binary(_, y, z) => Inside(x, y) || Inside(x, z)
       case Call(_, args) => InsideArgs(x, args)
       case _ => false
  }

  predicate InsideArgs(x: Expr, args: Args)
    decreases args
  {
    args.Arg? && (Inside(x, args.head) || InsideArgs(x, args.tail))
  }

  ghost predicate Faultless(e: Expr, p: Program) {
    forall x :: Inside(x, e) ==> !Faulty(x, p)
  }

  ghost predicate FaultlessArgs(args: Args, p: Program) {
    forall x :: InsideArgs(x, args) ==> !Faulty(x, p)
  }

  lemma KnownIff(name: string, p: Program)
    ensures Known(name, p) <==> !Undefined(name, p)
  {
    var k := Find(p.funcs, name, 0);
    if k >= 0 {
      assert p.funcs[k] in p.funcs;
    }
  }

  // ---------- a fault of a whole is one of its parts or its own ----------

  lemma TwoParts(e: Expr, y: Expr, z: Expr, p: Program)
    requires e == Assign(y, z) || e == LogAnd(y, z) || e == LogOr(y, z) || (e.Binary? && e.lhs == y && e.rhs == z)
    ensures Faultless(e, p) <==> !Faulty(e, p) && Faultless(y, p) && Faultless(z, p)
  {
    hide Faulty;
    assert forall x :: Inside(x, e) <==> x == e || Inside(x, y) || Inside(x, z);
    assert Inside(e, e);
  }

  lemma OnePart(e: Expr, y: Expr, p: Program)
    requires (e.Deref? && e.ptr == y) || (e.Member? && e.obj == y) || e == AddrOf(y) || e == Neg(y) || e == Not(y)
    ensures Faultless(e, p) <==> !Faulty(e, p) && Faultless(y, p)
  {
    hide Faulty;
    assert forall x :: Inside(x, e) <==> x == e || Inside(x, y);
    assert Inside(e, e);
  }

  lemma CallParts(e: Expr, p: Program)
    requires e.Call?
    ensures Faultless(e, p) <==> !Faulty(e, p) && FaultlessArgs(e.args, p)
  {
    hide Faulty;
    assert forall x :: Inside(x, e) <==> x == e || InsideArgs(x, e.args);
    assert Inside(e, e);
  }

  lemma ArgsParts(args: Args, p: Program)
    ensures args.NoArgs? ==> FaultlessArgs(args, p)
    ensures args.Arg? ==> (FaultlessArgs(args, p) <==> Faultless(args.head, p) && FaultlessArgs(args.tail, p))
  {
    hide Faulty, Inside;
    if args.Arg? {
      assert forall x :: InsideArgs(x, args) <==> Inside(x, args.head) || InsideArgs(x, args.tail);
    }
  }

  /** The generator takes an expression exactly when no part of it is at fault. */
  lemma {:induction false} ExprAccepted(e: Expr, p: Program)
    ensures ExprWf(e, p) <==> Faultless(e, p)
    decreases e, 1
  {
    hide Inside, Faultless;
    match e
    case Num(_) => Leaf(e, p);
    case StrLit(_) => Leaf(e, p);
    case VarRef(_, _) => Leaf(e, p);
    case Assign(d, s) => AddressAccepted(d, p); ExprAccepted(s, p); TwoParts(e, d, s, p);
    case Deref(q, _) => ExprAccepted(q, p); OnePart(e, q, p);
    case Member(o, _, _) => AddressAccepted(o, p); OnePart(e, o, p);
    case AddrOf(o) => AddressAccepted(o, p); OnePart(e, o, p);
    case Neg(x) => ExprAccepted(x, p); OnePart(e, x, p);
    case Not(x) => ExprAccepted(x, p); OnePart(e, x, p);
    case LogAnd(x, y) => ExprAccepted(x, p); ExprAccepted(y, p); TwoParts(e, x, y, p);
    case LogOr(x, y) => ExprAccepted(x, p); ExprAccepted(y, p); TwoParts(e, x, y, p);
    case Binary(_, x, y) => ExprAccepted(x, p); ExprAccepted(y, p); TwoParts(e, x, y, p);
    case Call(name, args) => ArgsAccepted(args, p); KnownIff(name, p); CallParts(e, p);
  }

  lemma Leaf(e: Expr, p: Program)
    requires e.Num? || e.StrLit? || e.VarRef?
    ensures Faultless(e, p)
  {
  }

  lemma {:induction false} AddressAccepted(e: Expr, p: Program)
    ensures AddressWf(e, p) <==> HasAddress(e) && Faultless(e, p)
    decreases e, 0
  {
    hide Inside, Faultless;
    match e
    case VarRef(_, _) => Leaf(e, p);
    case StrLit(_) => Leaf(e, p);
    case Deref(q, _) => ExprAccepted(q, p); OnePart(e, q, p);
    case Member(o, _, _) => AddressAccepted(o, p); OnePart(e, o, p);
    case _ =>
  }

  lemma {:induction false} ArgsAccepted(args: Args, p: Program)
    ensures ArgsWf(args, p) <==> FaultlessArgs(args, p)
    decreases args, 0
  {
    hide InsideArgs, FaultlessArgs;
    ArgsParts(args, p);
    if args.Arg? {
      ExprAccepted(args.head, p);
      ArgsAccepted(args.tail, p);
    }
  }

  // ---------- statements ----------

  /** `e` is one of the expressions written in `s`. */
  predicate Uses(s: Stmt, e: Expr) {
    match s
    case ExprStmt(x) => x == e
    case Return(x) => x == e
    case If(c, a, b) => c == e || Uses(a, e) || (b.Just? && Uses(b.get, e))
    case While(c, b) => c == e || Uses(b, e)
    case For(i, c, n, b) => (i.Just? && Uses(i.get, e)) || c == Just(e) || n == Just(e) || Uses(b, e)
    case Switch(c, b) => c == e || Uses(b, e)
    case Case(_, i) => Uses(i, e)
    case Block(ss) => UsesList(ss, e)
    case _ => false
  }

  predicate UsesList(ss: Stmts, e: Expr) {
    ss.Then? && (Uses(ss.first, e) || UsesList(ss.rest, e))
  }

  /** A `break` in `s` that no loop or switch in `s` encloses. */
  predicate LooseBreak(s: Stmt) {
    match s
    case Break => true
    case If(_, a, b) => LooseBreak(a) || (b.Just? && LooseBreak(b.get))
    case For(i, _, _, _) => i.Just? && LooseBreak(i.get)
    case Case(_, i) => LooseBreak(i)
    case Block(ss) => LooseBreakIn(ss)
    case _ => false
  }

  predicate LooseBreakIn(ss: Stmts) {
    ss.Then? && (LooseBreak(ss.first) || LooseBreakIn(ss.rest))
  }

  /** A `continue` in `s` that no loop in `s` encloses; a switch does not count. */
  predicate LooseContinue(s: Stmt) {
    match s
    case Continue => true
    case If(_, a, b) => LooseContinue(a) || (b.Just? && LooseContinue(b.get))
    case For(i, _, _, _) => i.Just? && LooseContinue(i.get)
    case Switch(_, b) => LooseContinue(b)
    case Case(_, i) => LooseContinue(i)
    case Block(ss) => LooseContinueIn(ss)
    case _ => false
  }

  predicate LooseContinueIn(ss: Stmts) {
    ss.Then? && (LooseContinue(ss.first) || LooseContinueIn(ss.rest))
  }

  ghost predicate AllFaultless(s: Stmt, p: Program) {
    forall e :: Uses(s, e) ==> Faultless(e, p)
  }

  ghost predicate ListFaultless(ss: Stmts, p: Program) {
    forall e :: UsesList(ss, e) ==> Faultless(e, p)
  }

  ghost predicate OptFaultless(e: Maybe<Expr>, p: Program) {
    e.Just? ==> Faultless(e.get, p)
  }

  lemma OptAccepted(e: Maybe<Expr>, p: Program)
    ensures (e.Just? ==> ExprWf(e.get, p)) <==> OptFaultless(e, p)
  {
    hide ExprWf, Faultless;
    if e.Just? {
      ExprAccepted(e.get, p);
    }
  }

  lemma Simple(s: Stmt, p: Program)
    ensures s.ExprStmt? || s.Return? ==> (AllFaultless(s, p) <==> Faultless(s.e, p))
    ensures s.Break? || s.Continue? ==> AllFaultless(s, p)
    ensures s.Case? ==> (AllFaultless(s, p) <==> AllFaultless(s.inner, p))
    ensures s.Block? ==> (AllFaultless(s, p) <==> ListFaultless(s.list, p))
  {
    hide Faultless;
    if s.ExprStmt? || s.Return? {
      assert Uses(s, s.e);
    } else if s.Case? {
      assert forall e :: Uses(s, e) <==> Uses(s.inner, e);
    } else if s.Block? {
      assert forall e :: Uses(s, e) <==> UsesList(s.list, e);
    }
  }

  lemma Guarded(s: Stmt, p: Program)
    requires s.While? || s.Switch?
    ensures AllFaultless(s, p) <==> Faultless(s.cond, p) && AllFaultless(s.body, p)
  {
    hide Faultless;
    assert Uses(s, s.cond);
    assert forall e :: Uses(s, e) <==> e == s.cond || Uses(s.body, e);
  }

  lemma Branched(s: Stmt, p: Program)
    requires s.If?
    ensures AllFaultless(s, p) <==> Faultless(s.cond, p) && AllFaultless(s.thn, p) && (s.els.Just? ==> AllFaultless(s.els.get, p))
  {
    hide Faultless;
    assert Uses(s, s.cond);
    assert forall e :: Uses(s, e) <==> e == s.cond || Uses(s.thn, e) || (s.els.Just? && Uses(s.els.get, e));
  }

  lemma Looped(s: Stmt, p: Program)
    requires s.For?
    ensures AllFaultless(s, p) <==>
      (s.init.Just? ==> AllFaultless(s.init.get, p)) && OptFaultless(s.test, p) && OptFaultless(s.inc, p) && AllFaultless(s.body, p)
  {
    hide Faultless;
    assert s.test.Just? ==> Uses(s, s.test.get);
    assert s.inc.Just? ==> Uses(s, s.inc.get);
    assert forall e :: Uses(s, e) <==> (s.init.Just? && Uses(s.init.get, e)) || s.test == Just(e) || s.inc == Just(e) || Uses(s.body, e);
  }

  lemma Listed(ss: Stmts, p: Program)
    ensures ss.Done? ==> ListFaultless(ss, p)
    ensures ss.Then? ==> (ListFaultless(ss, p) <==> AllFaultless(ss.first, p) && ListFaultless(ss.rest, p))
  {
    hide Faultless, Uses;
    if ss.Then? {
      assert forall e :: UsesList(ss, e) <==> Uses(ss.first, e) || UsesList(ss.rest, e);
    }
  }

  /** With `inBrk` and `inCont` around it, a statement is taken exactly when it has no fault and no loose jump. */
  lemma {:induction false} StmtAccepted(s: Stmt, p: Program, inBrk: bool, inCont: bool)
    ensures StmtWf(s, p, inBrk, inCont) <==> AllFaultless(s, p) && (LooseBreak(s) ==> inBrk) && (LooseContinue(s) ==> inCont)
  {
    hide ExprWf, Uses, AllFaultless, Faultless;
    match s
    case ExprStmt(e) => ExprAccepted(e, p); Simple(s, p);
    case Return(e) => ExprAccepted(e, p); Simple(s, p);
    case If(c, a, b) =>
      ExprAccepted(c, p);
      StmtAccepted(a, p, inBrk, inCont);
      if b.Just? { StmtAccepted(b.get, p, inBrk, inCont); }
      Branched(s, p);
    case While(c, b) => ExprAccepted(c, p); StmtAccepted(b, p, true, true); Guarded(s, p);
    case For(i, c, n, b) =>
      if i.Just? { StmtAccepted(i.get, p, inBrk, inCont); }
      OptAccepted(c, p);
      OptAccepted(n, p);
      StmtAccepted(b, p, true, true);
      Looped(s, p);
    case Switch(c, b) => ExprAccepted(c, p); StmtAccepted(b, p, true, inCont); Guarded(s, p);
    case Case(_, i) => StmtAccepted(i, p, inBrk, inCont); Simple(s, p);
    case Break => Simple(s, p);
    case Continue => Simple(s, p);
    case Block(ss) => ListAccepted(ss, p, inBrk, inCont); Simple(s, p);
  }

  lemma {:induction false} ListAccepted(ss: Stmts, p: Program, inBrk: bool, inCont: bool)
    ensures ListWf(ss, p, inBrk, inCont) <==> ListFaultless(ss, p) && (LooseBreakIn(ss) ==> inBrk) && (LooseContinueIn(ss) ==> inCont)
  {
    hide UsesList, ListFaultless, AllFaultless;
    Listed(ss, p);
    if ss.Then? {
      StmtAccepted(ss.first, p, inBrk, inCont);
      ListAccepted(ss.rest, p, inBrk, inCont);
    }
  }

  /** `e` is part of an expression written in `s`. */
  ghost predicate Occurs(e: Expr, s: Stmt) {
    exists x :: Uses(s, x) && Inside(e, x)
  }

  lemma FaultsOccur(s: Stmt, p: Program)
    ensures AllFaultless(s, p) <==> forall e :: Occurs(e, s) ==> !Faulty(e, p)
  {
    hide Uses, Inside, Faulty;
    if AllFaultless(s, p) {
      forall e | Occurs(e, s) ensures !Faulty(e, p) {
        var x :| Uses(s, x) && Inside(e, x);
        assert Faultless(x, p);
      }
    }
    if forall e :: Occurs(e, s) ==> !Faulty(e, p) {
      forall x | Uses(s, x) ensures Faultless(x, p) {
        forall e | Inside(e, x) ensures !Faulty(e, p) {
          assert Occurs(e, s);
        }
      }
    }
  }

  /** A function body is taken exactly when no expression that occurs in it is at fault and it has no loose jump. */
  lemma BodyAccepted(body: Stmt, p: Program)
    ensures StmtWf(body, p, false, false) <==>
      (forall e :: Occurs(e, body) ==> !Faulty(e, p)) && !LooseBreak(body) && !LooseContinue(body)
  {
    hide StmtWf, AllFaultless, Occurs, Faulty, LooseBreak, LooseContinue;
    StmtAccepted(body, p, false, false);
    FaultsOccur(body, p);
  }
}
