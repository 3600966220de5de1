/**
 Fuel only bounds how long the source semantics may look: once there is an answer, more fuel
 gives the same answer.
 */
module Fuel {
  import opened Memory
  import opened Machine
  import opened Csyntax
  import opened Csemantics

  lemma {:induction false} AddressFuel(pl: Platform, p: Program, e: Expr, env: Env, sp: int, m: Ram, t: Trace, f: nat, g: nat)
    requires f <= g && Address(pl, p, e, env, sp, m, t, f).Ok?
    ensures Address(pl, p, e, env, sp, m, t, g) == Address(pl, p, e, env, sp, m, t, f)
    decreases f, e, 0
  {
    hide Eval;
    match e
    case Deref(q, _) => EvalFuel(pl, p, q, env, sp, m, t, f, g);
    case Member(o, _, _) => AddressFuel(pl, p, o, env, sp, m, t, f, g);
    case _ =>
  }

  lemma {:induction false} EvalFuel(pl: Platform, p: Program, e: Expr, env: Env, sp: int, m: Ram, t: Trace, f: nat, g: nat)
    requires f <= g && Eval(pl, p, e, env, sp, m, t, f).Ok?
    ensures Eval(pl, p, e, env, sp, m, t, g) == Eval(pl, p, e, env, sp, m, t, f)
    decreases f, e, 2
  {
    hide Address, EvalAssign, EvalAnd, EvalOr, EvalBinary, EvalCall;
    match e
    case Num(_) =>
    case StrLit(_) =>
    case VarRef(_, _) => AddressFuel(pl, p, e, env, sp, m, t, f, g);
    case Deref(q, _) => EvalFuel(pl, p, q, env, sp, m, t, f, g);
    case Member(_, _, _) => AddressFuel(pl, p, e, env, sp, m, t, f, g);
    case AddrOf(o) => AddressFuel(pl, p, o, env, sp, m, t, f, g);
    case Neg(x) => EvalFuel(pl, p, x, env, sp, m, t, f, g);
    case Not(x) => EvalFuel(pl, p, x, env, sp, m, t, f, g);
    case Assign(d, x) => AssignFuel(pl, p, d, x, env, sp, m, t, f, g);
    case LogAnd(x, y) => LogicFuel(pl, p, e, x, y, env, sp, m, t, f, g);
    case LogOr(x, y) => LogicFuel(pl, p, e, x, y, env, sp, m, t, f, g);
    case Binary(op, x, y) => BinaryFuel(pl, p, op, x, y, env, sp, m, t, f, g);
    case Call(name, args) => CallFuel(pl, p, name, args, env, sp, m, t, f, g);
  }

  lemma {:induction false} AssignFuel(pl: Platform, p: Program, d: Expr, x: Expr, env: Env, sp: int, m: Ram, t: Trace, f: nat, g: nat)
    requires f <= g && EvalAssign(pl, p, d, x, env, sp, m, t, f).Ok?
    ensures EvalAssign(pl, p, d, x, env, sp, m, t, g) == EvalAssign(pl, p, d, x, env, sp, m, t, f)
    decreases f, Assign(d, x), 1
  {
    hide Address, Eval, Write;
    AddressFuel(pl, p, d, env, sp, m, t, f, g);
    var a := Address(pl, p, d, env, sp, m, t, f);
    EvalFuel(pl, p, x, env, sp - 16, a.m, a.t, f, g);
  }

  lemma {:induction false} LogicFuel(pl: Platform, p: Program, e: Expr, x: Expr, y: Expr, env: Env, sp: int, m: Ram, t: Trace, f: nat, g: nat)
    requires f <= g && (e == LogAnd(x, y) || e == LogOr(x, y))
    ensures EvalAnd(pl, p, x, y, env, sp, m, t, f).Ok? ==> EvalAnd(pl, p, x, y, env, sp, m, t, g) == EvalAnd(pl, p, x, y, env, sp, m, t, f)
    ensures EvalOr(pl, p, x, y, env, sp, m, t, f).Ok? ==> EvalOr(pl, p, x, y, env, sp, m, t, g) == EvalOr(pl, p, x, y, env, sp, m, t, f)
    decreases f, e, 1
  {
    hide Eval;
    var a := Eval(pl, p, x, env, sp, m, t, f);
    if a.Ok? {
      EvalFuel(pl, p, x, env, sp, m, t, f, g);
      if Eval(pl, p, y, env, sp, a.m, a.t, f).Ok? { EvalFuel(pl, p, y, env, sp, a.m, a.t, f, g); }
    }
  }

  lemma {:induction false} BinaryFuel(pl: Platform, p: Program, op: BinOp, x: Expr, y: Expr, env: Env, sp: int, m: Ram, t: Trace, f: nat, g: nat)
    requires f <= g && EvalBinary(pl, p, op, x, y, env, sp, m, t, f).Ok?
    ensures EvalBinary(pl, p, op, x, y, env, sp, m, t, g) == EvalBinary(pl, p, op, x, y, env, sp, m, t, f)
    decreases f, Binary(op, x, y), 1
  {
    hide Eval, Apply;
    EvalFuel(pl, p, y, env, sp, m, t, f, g);
    var b := Eval(pl, p, y, env, sp, m, t, f);
    EvalFuel(pl, p, x, env, sp - 16, b.m, b.t, f, g);
  }

  lemma {:induction false} CallFuel(pl: Platform, p: Program, name: string, args: Args, env: Env, sp: int, m: Ram, t: Trace, f: nat, g: nat)
    requires f <= g && EvalCall(pl, p, name, args, env, sp, m, t, f).Ok?
    ensures EvalCall(pl, p, name, args, env, sp, m, t, g) == EvalCall(pl, p, name, args, env, sp, m, t, f)
    decreases f, Call(name, args), 1
  {
    hide EvalArgs, Activate, CallExtern;
    ArgsFuel(pl, p, args, env, sp, m, t, f, g);
    var a := EvalArgs(pl, p, args, env, sp, m, t, f);
    var k := Find(p.funcs, name, 0);
    if k >= 0 {
      ActivateFuel(pl, p, p.funcs[k], a.v, env.alloc, sp, a.m, a.t, f - 1, g - 1);
    }
  }

  lemma {:induction false} ArgsFuel(pl: Platform, p: Program, args: Args, env: Env, sp: int, m: Ram, t: Trace, f: nat, g: nat)
    requires f <= g && EvalArgs(pl, p, args, env, sp, m, t, f).Ok?
    ensures EvalArgs(pl, p, args, env, sp, m, t, g) == EvalArgs(pl, p, args, env, sp, m, t, f)
    decreases f, args, 0
  {
    hide Eval;
    if args.Arg? {
      EvalFuel(pl, p, args.head, env, sp, m, t, f, g);
      var a := Eval(pl, p, args.head, env, sp, m, t, f);
      ArgsFuel(pl, p, args.tail, env, sp - 16, a.m, a.t, f, g);
    }
  }

  /** An activation that ends means the same however much fuel it is given. */
  lemma {:induction false} ActivateFuel(pl: Platform, p: Program, fn: Func, vals: seq<U64>, alloc: set<int>, sp: int, m: Ram, t: Trace, f: nat, g: nat)
    requires f <= g && Activate(pl, p, fn, vals, alloc, sp, m, t, f).Ok?
    ensures Activate(pl, p, fn, vals, alloc, sp, m, t, g) == Activate(pl, p, fn, vals, alloc, sp, m, t, f)
    decreases f, fn, 0
  {
    hide Exec, Spill, FrameSize, Offsets, Restrict, ParamSlots;
    var fp, size := sp - 16, FrameSize(fn.locals);
    var inner := alloc + Range(fp - size, fp);
    var m1 := Spill(ParamSlots(fn), fp, inner, vals, m, 0);
    ExecFuel(pl, p, fn.body, -1, Env(fp, Offsets(fn.locals), inner), fp - size, m1.value, t, f, g);
  }

  lemma {:induction false} ExecFuel(pl: Platform, p: Program, s: Stmt, seek: int, env: Env, sp: int, m: Ram, t: Trace, f: nat, g: nat)
    requires -1 <= seek < |Cases(s)| && f <= g && Exec(pl, p, s, seek, env, sp, m, t, f).Ok?
    ensures Exec(pl, p, s, seek, env, sp, m, t, g) == Exec(pl, p, s, seek, env, sp, m, t, f)
    decreases f, s, 4
  {
    hide Eval, ExecIf, ExecWhile, ExecFor, ExecSwitch, ExecList;
    match s
    case ExprStmt(e) => EvalFuel(pl, p, e, env, sp, m, t, f, g);
    case Return(e) => EvalFuel(pl, p, e, env, sp, m, t, f, g);
    case If(_, _, _) => IfFuel(pl, p, s, seek, env, sp, m, t, f, g);
    case While(_, _) => WhileFuel(pl, p, s, seek, env, sp, m, t, f, g);
    case For(_, _, _, _) => ForFuel(pl, p, s, seek, env, sp, m, t, f, g);
    case Switch(_, _) => SwitchFuel(pl, p, s, env, sp, m, t, f, g);
    case Case(_, i) => ExecFuel(pl, p, i, if seek <= 0 then -1 else seek - 1, env, sp, m, t, f, g);
    case Break =>
    case Continue =>
    case Block(ss) => ListFuel(pl, p, ss, seek, env, sp, m, t, f, g);
  }

  lemma {:induction false} IfFuel(pl: Platform, p: Program, s: Stmt, seek: int, env: Env, sp: int, m: Ram, t: Trace, f: nat, g: nat)
    requires s.If? && -1 <= seek < |Cases(s)| && f <= g && ExecIf(pl, p, s, seek, env, sp, m, t, f).Ok?
    ensures ExecIf(pl, p, s, seek, env, sp, m, t, g) == ExecIf(pl, p, s, seek, env, sp, m, t, f)
    decreases f, s, 3
  {
    hide Eval, Exec;
    if seek >= |Cases(s.thn)| {
      ExecFuel(pl, p, s.els.get, seek - |Cases(s.thn)|, env, sp, m, t, f, g);
    } else if seek >= 0 {
      ExecFuel(pl, p, s.thn, seek, env, sp, m, t, f, g);
    } else {
      EvalFuel(pl, p, s.cond, env, sp, m, t, f, g);
      var c := Eval(pl, p, s.cond, env, sp, m, t, f);
      if c.v != 0 {
        ExecFuel(pl, p, s.thn, -1, env, sp, c.m, c.t, f, g);
      } else if s.els.Just? {
        ExecFuel(pl, p, s.els.get, -1, env, sp, c.m, c.t, f, g);
      }
    }
  }

  lemma {:induction false} WhileFuel(pl: Platform, p: Program, s: Stmt, seek: int, env: Env, sp: int, m: Ram, t: Trace, f: nat, g: nat)
    requires s.While? && -1 <= seek < |Cases(s)| && f <= g && ExecWhile(pl, p, s, seek, env, sp, m, t, f).Ok?
    ensures ExecWhile(pl, p, s, seek, env, sp, m, t, g) == ExecWhile(pl, p, s, seek, env, sp, m, t, f)
    decreases f, s, 3
  {
    hide Eval, Exec, AfterWhileBody;
    if seek >= 0 {
      WhileRestFuel(pl, p, s, seek, env, sp, m, t, f, g);
    } else {
      EvalFuel(pl, p, s.cond, env, sp, m, t, f, g);
      var c := Eval(pl, p, s.cond, env, sp, m, t, f);
      if c.v != 0 {
        WhileRestFuel(pl, p, s, -1, env, sp, c.m, c.t, f, g);
      }
    }
  }

  lemma {:induction false} WhileRestFuel(pl: Platform, p: Program, s: Stmt, seek: int, env: Env, sp: int, m: Ram, t: Trace, f: nat, g: nat)
    requires s.While? && -1 <= seek < |Cases(s)| && f <= g
    requires AfterWhileBody(pl, p, s, Exec(pl, p, s.body, seek, env, sp, m, t, f), env, sp, f).Ok?
    ensures AfterWhileBody(pl, p, s, Exec(pl, p, s.body, seek, env, sp, m, t, g), env, sp, g)
            == AfterWhileBody(pl, p, s, Exec(pl, p, s.body, seek, env, sp, m, t, f), env, sp, f)
    decreases f, s, 2
  {
    hide Exec, Tick;
    var r := Exec(pl, p, s.body, seek, env, sp, m, t, f);
    ExecFuel(pl, p, s.body, seek, env, sp, m, t, f, g);
    if r.v.Continued? {
      ExecFuel(pl, p, s, -1, env, sp, r.m, r.t, f - 1, g - 1);
    } else if r.v.Normal? && Tick(pl, p, r.t).0 {
      ExecFuel(pl, p, s, -1, env, sp, r.m, Tick(pl, p, r.t).1, f - 1, g - 1);
    }
  }

  lemma {:induction false} ForFuel(pl: Platform, p: Program, s: Stmt, seek: int, env: Env, sp: int, m: Ram, t: Trace, f: nat, g: nat)
    requires s.For? && -1 <= seek < |Cases(s)| && f <= g && ExecFor(pl, p, s, seek, env, sp, m, t, f).Ok?
    ensures ExecFor(pl, p, s, seek, env, sp, m, t, g) == ExecFor(pl, p, s, seek, env, sp, m, t, f)
    decreases f, s, 3
  {
    hide Exec, ForLoop, AfterForBody;
    if seek >= 0 {
      ForRestFuel(pl, p, s, seek, env, sp, m, t, f, g);
    } else if s.init.Nothing? {
      ForLoopFuel(pl, p, s, env, sp, m, t, f, g);
    } else {
      ExecFuel(pl, p, s.init.get, -1, env, sp, m, t, f, g);
      var i := Exec(pl, p, s.init.get, -1, env, sp, m, t, f);
      if i.v.Normal? { ForLoopFuel(pl, p, s, env, sp, i.m, i.t, f, g); }
    }
  }

  lemma {:induction false} ForLoopFuel(pl: Platform, p: Program, s: Stmt, env: Env, sp: int, m: Ram, t: Trace, f: nat, g: nat)
    requires s.For? && f <= g && ForLoop(pl, p, s, env, sp, m, t, f).Ok?
    ensures ForLoop(pl, p, s, env, sp, m, t, g) == ForLoop(pl, p, s, env, sp, m, t, f)
    decreases f, s, 2
  {
    hide Eval, Exec, AfterForBody;
    if s.test.Nothing? {
      ForRestFuel(pl, p, s, -1, env, sp, m, t, f, g);
    } else {
      EvalFuel(pl, p, s.test.get, env, sp, m, t, f, g);
      var c := Eval(pl, p, s.test.get, env, sp, m, t, f);
      if c.v != 0 { ForRestFuel(pl, p, s, -1, env, sp, c.m, c.t, f, g); }
    }
  }

  lemma {:induction false} ForRestFuel(pl: Platform, p: Program, s: Stmt, seek: int, env: Env, sp: int, m: Ram, t: Trace, f: nat, g: nat)
    requires s.For? && -1 <= seek < |Cases(s)| && f <= g
    requires AfterForBody(pl, p, s, Exec(pl, p, s.body, seek, env, sp, m, t, f), env, sp, f).Ok?
    ensures AfterForBody(pl, p, s, Exec(pl, p, s.body, seek, env, sp, m, t, g), env, sp, g)
            == AfterForBody(pl, p, s, Exec(pl, p, s.body, seek, env, sp, m, t, f), env, sp, f)
    decreases f, s, 1
  {
    hide Exec, Eval, ForAgain;
    var r := Exec(pl, p, s.body, seek, env, sp, m, t, f);
    ExecFuel(pl, p, s.body, seek, env, sp, m, t, f, g);
    if r.v.Normal? || r.v.Continued? {
      if s.inc.Nothing? {
        ForAgainFuel(pl, p, s, env, sp, r.m, r.t, f, g);
      } else {
        EvalFuel(pl, p, s.inc.get, env, sp, r.m, r.t, f, g);
        var i := Eval(pl, p, s.inc.get, env, sp, r.m, r.t, f);
        ForAgainFuel(pl, p, s, env, sp, i.m, i.t, f, g);
      }
    }
  }

  lemma {:induction false} ForAgainFuel(pl: Platform, p: Program, s: Stmt, env: Env, sp: int, m: Ram, t: Trace, f: nat, g: nat)
    requires s.For? && f <= g && ForAgain(pl, p, s, env, sp, m, t, f).Ok?
    ensures ForAgain(pl, p, s, env, sp, m, t, g) == ForAgain(pl, p, s, env, sp, m, t, f)
    decreases f, s, 0
  {
    hide ForLoop, Tick;
    if Tick(pl, p, t).0 {
      ForLoopFuel(pl, p, s, env, sp, m, Tick(pl, p, t).1, f - 1, g - 1);
    }
  }

  lemma {:induction false} SwitchFuel(pl: Platform, p: Program, s: Stmt, env: Env, sp: int, m: Ram, t: Trace, f: nat, g: nat)
    requires s.Switch? && f <= g && ExecSwitch(pl, p, s, env, sp, m, t, f).Ok?
    ensures ExecSwitch(pl, p, s, env, sp, m, t, g) == ExecSwitch(pl, p, s, env, sp, m, t, f)
    decreases f, s, 3
  {
    hide Eval, Exec, Target, Cases;
    EvalFuel(pl, p, s.cond, env, sp, m, t, f, g);
    var c := Eval(pl, p, s.cond, env, sp, m, t, f);
    var k := Target(Cases(s.body), c.v);
    if k >= 0 { ExecFuel(pl, p, s.body, k, env, sp, c.m, c.t, f, g); }
  }

  lemma {:induction false} ListFuel(pl: Platform, p: Program, ss: Stmts, seek: int, env: Env, sp: int, m: Ram, t: Trace, f: nat, g: nat)
    requires -1 <= seek < |CasesOf(ss)| && f <= g && ExecList(pl, p, ss, seek, env, sp, m, t, f).Ok?
    ensures ExecList(pl, p, ss, seek, env, sp, m, t, g) == ExecList(pl, p, ss, seek, env, sp, m, t, f)
    decreases f, ss, 3
  {
    hide Exec;
    if ss.Then? {
      if seek >= |Cases(ss.first)| {
        ListFuel(pl, p, ss.rest, seek - |Cases(ss.first)|, env, sp, m, t, f, g);
      } else {
        ExecFuel(pl, p, ss.first, seek, env, sp, m, t, f, g);
        var r := Exec(pl, p, ss.first, seek, env, sp, m, t, f);
        if r.v.Normal? { ListFuel(pl, p, ss.rest, -1, env, sp, r.m, r.t, f, g); }
      }
    }
  }
}
