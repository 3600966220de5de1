/**
 What a program of the C subset means. Locals have addresses: the frame of an activation
 lies just below the stack depth at which the call happens, so evaluation carries that
 depth (`sp`) along. Memory is `m`, a map from initialised bytes; `alloc` is the set of bytes
 the program may touch. Reading an uninitialised byte, touching a byte outside `alloc`, running
 out of stack or of fuel is a `Fault`.
 */
module Csemantics {
  import opened Common
  import opened Memory
  import opened Machine
  import opened Csyntax

  /** `externs` are the kernel symbols, `tick` is the loop guard (0 if there is none). */
  datatype Program = Program(funcs: seq<Func>, externs: map<string, U64>, tick: U64, limit: int)

  datatype Env = Env(fp: int, offs: seq<nat>, alloc: set<int>)

  datatype Outcome<T> = Fault | Ok(v: T, m: Ram, t: Trace)

  datatype Exit = Normal | Broke | Continued | Returned(val: U64)

  /** First function with that name, as the generator's lookup finds it. */
  function Find(fs: seq<Func>, name: string, n: nat): (k: int)
    requires n <= |fs|
    ensures -1 <= k < |fs|
    ensures k >= 0 ==> n <= k && fs[k].name == name && forall i :: n <= i < k ==> fs[i].name != name
    ensures k < 0 ==> forall i :: n <= i < |fs| ==> fs[i].name != name
    decreases |fs| - n
  {
    if n == |fs| then -1 else if fs[n].name == name then n else Find(fs, name, n + 1)
  }

  function Range(lo: int, hi: int): (s: set<int>)
    ensures forall x :: x in s <==> lo <= x < hi
    decreases hi - lo
  {
    if lo >= hi then {} else {lo} + Range(lo + 1, hi)
  }

  predicate Covers(s: set<int>, a: int, n: nat) {
    forall x :: a <= x < a + n ==> x in s
  }

  function Read(ty: Ty, a: U64, m: Ram): Option<U64> {
    if ty.Array? then Some(a)
    else if ty.Size() == 1 then if a in m then Some(m[a]) else None
    else if Covers(m.Keys, a, 8) then Some(LoadWord(m, a))
    else None
  }

  function Write(ty: Ty, a: U64, v: U64, m: Ram, alloc: set<int>): Option<Ram> {
    if ty.Size() == 1 then if a in alloc then Some(StoreN(m, a, v, 1)) else None
    else if Covers(alloc, a, 8) then Some(StoreWord(m, a, v))
    else None
  }

  function Restrict(m: Ram, alloc: set<int>): (r: Ram)
    ensures forall x :: x in r <==> x in m && x in alloc
    ensures forall x :: x in r ==> r[x] == m[x]
  {
    map x | x in m && x in alloc :: m[x]
  }

  function Apply(op: BinOp, x: U64, y: U64): U64 {
    match op
    case Add => Wrap(x + y)
    case Sub => Wrap(x - y)
    case Mul => Wrap(x * y)
    case Div => SDiv(x, y)
    case Mod => SRem(x, y)
    case Eq => if x == y then 1 else 0
    case Ne => if x != y then 1 else 0
    case Lt => if Signed(x) < Signed(y) then 1 else 0
    case Le => if Signed(x) <= Signed(y) then 1 else 0
  }

  /** One call of the loop guard: whether to go on, and the trace afterwards. */
  function Tick(pl: Platform, p: Program, t: Trace): (bool, Trace) {
    if p.tick == 0 then (true, t)
    else
      var r := pl.answer(t, p.tick, []);
      (r != 0, t + [Event(p.tick, [], r)])
  }

  /** The address an lvalue denotes. */
  function Address(pl: Platform, p: Program, e: Expr, env: Env, sp: int, m: Ram, t: Trace, fuel: nat): Outcome<U64>
    decreases fuel, e, 0
  {
    match e
    case VarRef(Global(a), _) => Ok(a, m, t)
    case VarRef(Local(i), _) =>
      if i < |env.offs| then Ok(Wrap(env.fp - env.offs[i]), m, t) else Fault
    case Deref(ptr, _) => Eval(pl, p, ptr, env, sp, m, t, fuel)
    case Member(obj, off, _) =>
      (match Address(pl, p, obj, env, sp, m, t, fuel)
       case Fault => Fault
       case Ok(a, m1, t1) => Ok(Wrap(a + off), m1, t1))
    case StrLit(a) => Ok(a, m, t)
    case _ => Fault
  }

  function Fetch(ty: Ty, r: Outcome<U64>): Outcome<U64> {
    match r
    case Fault => Fault
    case Ok(a, m, t) =>
      match Read(ty, a, m)
      case None => Fault
      case Some(v) => Ok(v, m, t)
  }

  function Eval(pl: Platform, p: Program, e: Expr, env: Env, sp: int, m: Ram, t: Trace, fuel: nat): Outcome<U64>
    decreases fuel, e, 2
  {
    match e
    case Num(n) => Ok(n, m, t)
    case StrLit(a) => Ok(a, m, t)
    case VarRef(_, ty) => Fetch(ty, Address(pl, p, e, env, sp, m, t, fuel))
    case Deref(ptr, ty) => Fetch(ty, Eval(pl, p, ptr, env, sp, m, t, fuel))
    case Member(_, _, ty) => Fetch(ty, Address(pl, p, e, env, sp, m, t, fuel))
    case AddrOf(obj) => Address(pl, p, obj, env, sp, m, t, fuel)
    case Neg(x) => Negated(Eval(pl, p, x, env, sp, m, t, fuel))
    case Not(x) => Inverted(Eval(pl, p, x, env, sp, m, t, fuel))
    case Assign(dst, src) => EvalAssign(pl, p, dst, src, env, sp, m, t, fuel)
    case LogAnd(x, y) => EvalAnd(pl, p, x, y, env, sp, m, t, fuel)
    case LogOr(x, y) => EvalOr(pl, p, x, y, env, sp, m, t, fuel)
    case Binary(op, x, y) => EvalBinary(pl, p, op, x, y, env, sp, m, t, fuel)
    case Call(name, args) => EvalCall(pl, p, name, args, env, sp, m, t, fuel)
  }

  function Negated(r: Outcome<U64>): Outcome<U64> {
    match r
    case Fault => Fault
    case Ok(v, m, t) => Ok(Negate(v), m, t)
  }

  function Inverted(r: Outcome<U64>): Outcome<U64> {
    match r
    case Fault => Fault
    case Ok(v, m, t) => Ok(if v == 0 then 1 else 0, m, t)
  }

  function Truth(r: Outcome<U64>): Outcome<U64> {
    match r
    case Fault => Fault
    case Ok(v, m, t) => Ok(if v == 0 then 0 else 1, m, t)
  }

  /** The address first; it waits on the stack while the value is computed. The value is not truncated. */
  function EvalAssign(pl: Platform, p: Program, dst: Expr, src: Expr, env: Env, sp: int, m: Ram, t: Trace, fuel: nat): Outcome<U64>
    decreases fuel, Assign(dst, src), 1
  {
    match Address(pl, p, dst, env, sp, m, t, fuel)
    case Fault => Fault
    case Ok(a, m1, t1) =>
      if sp - 16 < p.limit then Fault
      else match Eval(pl, p, src, env, sp - 16, m1, t1, fuel)
        case Fault => Fault
        case Ok(v, m2, t2) =>
          match Write(TypeOf(dst), a, v, m2, env.alloc)
          case None => Fault
          case Some(m3) => Ok(v, m3, t2)
  }

  /** The right operand first; it waits on the stack while the left one is computed. */
  function EvalBinary(pl: Platform, p: Program, op: BinOp, x: Expr, y: Expr, env: Env, sp: int, m: Ram, t: Trace, fuel: nat): Outcome<U64>
    decreases fuel, Binary(op, x, y), 1
  {
    match Eval(pl, p, y, env, sp, m, t, fuel)
    case Fault => Fault
    case Ok(b, m1, t1) =>
      if sp - 16 < p.limit then Fault
      else match Eval(pl, p, x, env, sp - 16, m1, t1, fuel)
        case Fault => Fault
        case Ok(a, m2, t2) => Ok(Apply(op, a, b), m2, t2)
  }

  function EvalAnd(pl: Platform, p: Program, x: Expr, y: Expr, env: Env, sp: int, m: Ram, t: Trace, fuel: nat): Outcome<U64>
    decreases fuel, LogAnd(x, y), 1
  {
    match Eval(pl, p, x, env, sp, m, t, fuel)
    case Fault => Fault
    case Ok(v, m1, t1) =>
      if v == 0 then Ok(0, m1, t1) else Truth(Eval(pl, p, y, env, sp, m1, t1, fuel))
  }

  function EvalOr(pl: Platform, p: Program, x: Expr, y: Expr, env: Env, sp: int, m: Ram, t: Trace, fuel: nat): Outcome<U64>
    decreases fuel, LogOr(x, y), 1
  {
    match Eval(pl, p, x, env, sp, m, t, fuel)
    case Fault => Fault
    case Ok(v, m1, t1) =>
      if v != 0 then Ok(1, m1, t1) else Truth(Eval(pl, p, y, env, sp, m1, t1, fuel))
  }

  function EvalCall(pl: Platform, p: Program, name: string, args: Args, env: Env, sp: int, m: Ram, t: Trace, fuel: nat): Outcome<U64>
    decreases fuel, Call(name, args), 1
  {
    match EvalArgs(pl, p, args, env, sp, m, t, fuel)
    case Fault => Fault
    case Ok(vals, m1, t1) =>
      var k := Find(p.funcs, name, 0);
      if k < 0 then CallExtern(pl, p, name, vals, m1, t1)
      else if fuel == 0 then Fault
      else Activate(pl, p, p.funcs[k], vals, env.alloc, sp, m1, t1, fuel - 1)
  }

  function CallExtern(pl: Platform, p: Program, name: string, vals: seq<U64>, m: Ram, t: Trace): Outcome<U64> {
    if name !in p.externs || p.externs[name] !in pl.arity then Fault
    else
      var a := p.externs[name];
      var n := pl.arity[a];
      if n > |vals| then Fault
      else
        var r := pl.answer(t, a, vals[..n]);
        Ok(r, m, t + [Event(a, vals[..n], r)])
  }

  /** Arguments left to right; each one already computed waits on the stack. */
  function EvalArgs(pl: Platform, p: Program, args: Args, env: Env, sp: int, m: Ram, t: Trace, fuel: nat): (r: Outcome<seq<U64>>)
    ensures r.Ok? ==> |r.v| == args.Length()
    decreases fuel, args, 0
  {
    match args
    case NoArgs => Ok([], m, t)
    case Arg(e, rest) =>
      match Eval(pl, p, e, env, sp, m, t, fuel)
      case Fault => Fault
      case Ok(v, m1, t1) =>
        if sp - 16 < p.limit then Fault
        else match EvalArgs(pl, p, rest, env, sp - 16, m1, t1, fuel)
          case Fault => Fault
          case Ok(vs, m2, t2) => Ok([v] + vs, m2, t2)
  }

  /** Parameter `i` and those after it, written into their slots. */
  function Spill(slots: seq<Slot>, fp: int, alloc: set<int>, vals: seq<U64>, m: Ram, i: nat): Option<Ram>
    requires i <= |slots|
    decreases |slots| - i
  {
    if i == |slots| then Some(m)
    else if i >= |vals| then None
    else
      match Write(slots[i].ty, Wrap(fp - slots[i].off), vals[i], m, alloc)
      case None => None
      case Some(m1) => Spill(slots, fp, alloc, vals, m1, i + 1)
  }

  /** One activation: a fresh frame below `sp`, gone again afterwards. Falling off the end returns 0. */
  function Activate(pl: Platform, p: Program, f: Func, vals: seq<U64>, alloc: set<int>, sp: int, m: Ram, t: Trace, fuel: nat): Outcome<U64>
    decreases fuel, f, 0
  {
    var size := FrameSize(f.locals);
    var fp := sp - 16;
    if fp - size < p.limit then Fault
    else
      var inner := alloc + Range(fp - size, fp);
      match Spill(ParamSlots(f), fp, inner, vals, m, 0)
      case None => Fault
      case Some(m1) =>
        match Exec(pl, p, f.body, -1, Env(fp, Offsets(f.locals), inner), fp - size, m1, t, fuel)
        case Fault => Fault
        case Ok(Normal, m2, t2) => Ok(0, Restrict(m2, alloc), t2)
        case Ok(Returned(v), m2, t2) => Ok(v, Restrict(m2, alloc), t2)
        case Ok(_, _, _) => Fault
  }

  /**
   Executes `s`. With `seek >= 0` a switch jumps into `s`: execution starts at its
   `seek`-th case label, however deeply that is nested.
   */
  function Exec(pl: Platform, p: Program, s: Stmt, seek: int, env: Env, sp: int, m: Ram, t: Trace, fuel: nat): Outcome<Exit>
    requires -1 <= seek < |Cases(s)|
    decreases fuel, s, 4
  {
    match s
    case ExprStmt(e) => Discarded(Eval(pl, p, e, env, sp, m, t, fuel))
    case Return(e) => Final(Eval(pl, p, e, env, sp, m, t, fuel))
    case If(_, _, _) => ExecIf(pl, p, s, seek, env, sp, m, t, fuel)
    case While(_, _) => ExecWhile(pl, p, s, seek, env, sp, m, t, fuel)
    case For(_, _, _, _) => ExecFor(pl, p, s, seek, env, sp, m, t, fuel)
    case Switch(_, _) => ExecSwitch(pl, p, s, env, sp, m, t, fuel)
    case Case(_, i) => Exec(pl, p, i, if seek <= 0 then -1 else seek - 1, env, sp, m, t, fuel)
    case Break => Ok(Broke, m, t)
    case Continue => Ok(Continued, m, t)
    case Block(ss) => ExecList(pl, p, ss, seek, env, sp, m, t, fuel)
  }

  function Discarded(r: Outcome<U64>): Outcome<Exit> {
    match r
    case Fault => Fault
    case Ok(_, m, t) => Ok(Normal, m, t)
  }

  function Final(r: Outcome<U64>): Outcome<Exit> {
    match r
    case Fault => Fault
    case Ok(v, m, t) => Ok(Returned(v), m, t)
  }

  function ExecIf(pl: Platform, p: Program, s: Stmt, seek: int, env: Env, sp: int, m: Ram, t: Trace, fuel: nat): Outcome<Exit>
    requires s.If? && -1 <= seek < |Cases(s)|
    decreases fuel, s, 3
  {
    if seek >= |Cases(s.thn)| then Exec(pl, p, s.els.get, seek - |Cases(s.thn)|, env, sp, m, t, fuel)
    else if seek >= 0 then Exec(pl, p, s.thn, seek, env, sp, m, t, fuel)
    else
      match Eval(pl, p, s.cond, env, sp, m, t, fuel)
      case Fault => Fault
      case Ok(v, m1, t1) =>
        if v != 0 then Exec(pl, p, s.thn, -1, env, sp, m1, t1, fuel)
        else if s.els.Just? then Exec(pl, p, s.els.get, -1, env, sp, m1, t1, fuel)
        else Ok(Normal, m1, t1)
  }

  function ExecWhile(pl: Platform, p: Program, s: Stmt, seek: int, env: Env, sp: int, m: Ram, t: Trace, fuel: nat): Outcome<Exit>
    requires s.While? && -1 <= seek < |Cases(s)|
    decreases fuel, s, 3
  {
    if seek >= 0 then
      AfterWhileBody(pl, p, s, Exec(pl, p, s.body, seek, env, sp, m, t, fuel), env, sp, fuel)
    else
      match Eval(pl, p, s.cond, env, sp, m, t, fuel)
      case Fault => Fault
      case Ok(v, m1, t1) =>
        if v == 0 then Ok(Normal, m1, t1)
        else AfterWhileBody(pl, p, s, Exec(pl, p, s.body, -1, env, sp, m1, t1, fuel), env, sp, fuel)
  }

  function ExecFor(pl: Platform, p: Program, s: Stmt, seek: int, env: Env, sp: int, m: Ram, t: Trace, fuel: nat): Outcome<Exit>
    requires s.For? && -1 <= seek < |Cases(s)|
    decreases fuel, s, 3
  {
    if seek >= 0 then
      AfterForBody(pl, p, s, Exec(pl, p, s.body, seek, env, sp, m, t, fuel), env, sp, fuel)
    else if s.init.Nothing? then ForLoop(pl, p, s, env, sp, m, t, fuel)
    else
      match Exec(pl, p, s.init.get, -1, env, sp, m, t, fuel)
      case Ok(Normal, m1, t1) => ForLoop(pl, p, s, env, sp, m1, t1, fuel)
      case r => r
  }

  /** `break` ends the switch; `continue` and `return` pass through it. */
  function ExecSwitch(pl: Platform, p: Program, s: Stmt, env: Env, sp: int, m: Ram, t: Trace, fuel: nat): Outcome<Exit>
    requires s.Switch?
    decreases fuel, s, 3
  {
    match Eval(pl, p, s.cond, env, sp, m, t, fuel)
    case Fault => Fault
    case Ok(v, m1, t1) =>
      var k := Target(Cases(s.body), v);
      if k < 0 then Ok(Normal, m1, t1)
      else match Exec(pl, p, s.body, k, env, sp, m1, t1, fuel)
        case Ok(Broke, m2, t2) => Ok(Normal, m2, t2)
        case r => r
  }

  function ExecList(pl: Platform, p: Program, ss: Stmts, seek: int, env: Env, sp: int, m: Ram, t: Trace, fuel: nat): Outcome<Exit>
    requires -1 <= seek < |CasesOf(ss)|
    decreases fuel, ss, 3
  {
    match ss
    case Done => Ok(Normal, m, t)
    case Then(s, rest) =>
      if seek >= |Cases(s)| then ExecList(pl, p, rest, seek - |Cases(s)|, env, sp, m, t, fuel)
      else match Exec(pl, p, s, seek, env, sp, m, t, fuel)
        case Ok(Normal, m1, t1) => ExecList(pl, p, rest, -1, env, sp, m1, t1, fuel)
        case r => r
  }

  /** `continue` goes straight back to the condition; only the normal path asks the loop guard. */
  function AfterWhileBody(pl: Platform, p: Program, s: Stmt, r: Outcome<Exit>, env: Env, sp: int, fuel: nat): Outcome<Exit>
    requires s.While?
    decreases fuel, s, 0
  {
    match r
    case Fault => Fault
    case Ok(Broke, m, t) => Ok(Normal, m, t)
    case Ok(Returned(v), m, t) => r
    case Ok(Continued, m, t) => if fuel == 0 then Fault else Exec(pl, p, s, -1, env, sp, m, t, fuel - 1)
    case Ok(Normal, m, t) =>
      var (go, t1) := Tick(pl, p, t);
      if !go then Ok(Normal, m, t1)
      else if fuel == 0 then Fault
      else Exec(pl, p, s, -1, env, sp, m, t1, fuel - 1)
  }

  function ForLoop(pl: Platform, p: Program, s: Stmt, env: Env, sp: int, m: Ram, t: Trace, fuel: nat): Outcome<Exit>
    requires s.For?
    decreases fuel, s, 2
  {
    if s.test.Nothing? then
      AfterForBody(pl, p, s, Exec(pl, p, s.body, -1, env, sp, m, t, fuel), env, sp, fuel)
    else
      match Eval(pl, p, s.test.get, env, sp, m, t, fuel)
      case Fault => Fault
      case Ok(v, m1, t1) =>
        if v == 0 then Ok(Normal, m1, t1)
        else AfterForBody(pl, p, s, Exec(pl, p, s.body, -1, env, sp, m1, t1, fuel), env, sp, fuel)
  }

  /** In a `for`, `continue` runs the increment and does ask the loop guard. */
  function AfterForBody(pl: Platform, p: Program, s: Stmt, r: Outcome<Exit>, env: Env, sp: int, fuel: nat): Outcome<Exit>
    requires s.For?
    decreases fuel, s, 1
  {
    match r
    case Fault => Fault
    case Ok(Broke, m, t) => Ok(Normal, m, t)
    case Ok(Returned(v), m, t) => r
    case Ok(_, m, t) =>
      if s.inc.Nothing? then ForAgain(pl, p, s, env, sp, m, t, fuel)
      else match Eval(pl, p, s.inc.get, env, sp, m, t, fuel)
        case Fault => Fault
        case Ok(_, m1, t1) => ForAgain(pl, p, s, env, sp, m1, t1, fuel)
  }

  function ForAgain(pl: Platform, p: Program, s: Stmt, env: Env, sp: int, m: Ram, t: Trace, fuel: nat): Outcome<Exit>
    requires s.For?
    decreases fuel, s, 0
  {
    var (go, t1) := Tick(pl, p, t);
    if !go then Ok(Normal, m, t1)
    else if fuel == 0 then Fault
    else ForLoop(pl, p, s, env, sp, m, t1, fuel - 1)
  }
}
