/**
 The tree the parser hands to the code generator: resolved variables, typed lvalues,
 linked lists of statements and arguments.
 */
module Csyntax {
  import opened Memory

  datatype Ty = Int | Char | Ptr(base: Ty) | Array(elem: Ty, len: nat) | Struct(bytes: nat) {
    function Size(): nat {
      match this
      case Int => 8
      case Char => 1
      case Ptr(_) => 8
      case Array(e, n) => e.Size() * n
      case Struct(b) => b
    }
  }

  /** A variable is a slot of the function's local list, or a fixed address. */
  datatype Var = Local(slot: nat) | Global(addr: U64)

  datatype BinOp = Add | Sub | Mul | Div | Mod | Eq | Ne | Lt | Le

  datatype Expr =
    | Num(val: U64)
    | StrLit(addr: U64)
    | VarRef(v: Var, ty: Ty)
    | Assign(dst: Expr, src: Expr)
    | Deref(ptr: Expr, ty: Ty)
    | Member(obj: Expr, off: nat, ty: Ty)
    | AddrOf(obj: Expr)
    | Neg(arg: Expr)
    | Not(arg: Expr)
    | LogAnd(lhs: Expr, rhs: Expr)
    | LogOr(lhs: Expr, rhs: Expr)
    | Binary(op: BinOp, lhs: Expr, rhs: Expr)
    | Call(fn: string, args: Args)

  datatype Args = NoArgs | Arg(head: Expr, tail: Args) {
    function Length(): nat {
      if NoArgs? then 0 else 1 + tail.Length()
    }
  }

  datatype Maybe<T> = Nothing | Just(get: T)

  datatype Label = Default | CaseOf(val: U64)

  datatype Stmt =
    | ExprStmt(e: Expr)
    | Return(e: Expr)
    | If(cond: Expr, thn: Stmt, els: Maybe<Stmt>)
    | While(cond: Expr, body: Stmt)
    | For(init: Maybe<Stmt>, test: Maybe<Expr>, inc: Maybe<Expr>, body: Stmt)
    | Switch(cond: Expr, body: Stmt)
    | Case(lab: Label, inner: Stmt)
    | Break
    | Continue
    | Block(list: Stmts)

  datatype Stmts = Done | Then(first: Stmt, rest: Stmts)

  /**
   `locals` is the function's variable list: the latest declaration first, the parameters last
   (`Prepended`). `params[i]` is the slot of parameter `i`.
   */
  datatype Func = Func(name: string, locals: seq<Ty>, params: seq<nat>, body: Stmt)

  /** Type of an lvalue, as the store and load instructions look at it. */
  function TypeOf(e: Expr): Ty {
    match e
    case VarRef(_, ty) => ty
    case Deref(_, ty) => ty
    case Member(_, _, ty) => ty
    case StrLit(_) => Ptr(Char)
    case _ => Int
  }

  /**
   The case labels that belong to the switch enclosing `s`, in source order. A nested
   switch keeps its own.
   */
  function Cases(s: Stmt): seq<Label> {
    match s
    case If(_, t, e) => Cases(t) + (if e.Just? then Cases(e.get) else [])
    case While(_, b) => Cases(b)
    case For(_, _, _, b) => Cases(b)
    case Case(l, i) => [l] + Cases(i)
    case Block(ss) => CasesOf(ss)
    case _ => []
  }

  function CasesOf(ss: Stmts): seq<Label> {
    match ss
    case Done => []
    case Then(s, rest) => Cases(s) + CasesOf(rest)
  }

  /**
   The label a switch on `v` goes to among the first `n`, in source order. Labels are
   tested from the last one back, because the parser prepends each to the list.
   */
  function Matching(cs: seq<Label>, v: U64, n: nat): (k: int)
    requires n <= |cs|
    ensures -1 <= k < n
    ensures k >= 0 ==> cs[k] == CaseOf(v) && forall j :: k < j < n ==> cs[j] != CaseOf(v)
    ensures k < 0 ==> forall j :: 0 <= j < n ==> cs[j] != CaseOf(v)
  {
    if n == 0 then -1
    else if cs[n - 1] == CaseOf(v) then n - 1
    else Matching(cs, v, n - 1)
  }

  /**
   The default label: the generator walks the same reversed list and keeps the last
   default it sees, which is the first in source order.
   */
  function DefaultAt(cs: seq<Label>, n: nat): (k: int)
    requires n <= |cs|
    ensures -1 <= k < |cs|
    ensures k >= 0 ==> n <= k && cs[k] == Default && forall j :: n <= j < k ==> cs[j] != Default
    ensures k < 0 ==> forall j :: n <= j < |cs| ==> cs[j] != Default
    decreases |cs| - n
  {
    if n == |cs| then -1
    else if cs[n] == Default then n
    else DefaultAt(cs, n + 1)
  }

  function Target(cs: seq<Label>, v: U64): (k: int)
    ensures -1 <= k < |cs|
  {
    var m := Matching(cs, v, |cs|);
    if m >= 0 then m else DefaultAt(cs, 0)
  }

  // ---------- frame layout ----------

  /** The list the parser leaves, which puts each parameter and then each declared variable in front. */
  function Prepended(vars: seq<Ty>): (r: seq<Ty>)
    ensures |r| == |vars| && forall i :: 0 <= i < |r| ==> r[i] == vars[|vars| - 1 - i]
  {
    if vars == [] then [] else [vars[|vars| - 1]] + Prepended(vars[..|vars| - 1])
  }

  /** Round up; the generator only asks for 8 and 16. */
  function AlignUp(n: nat, a: nat): (r: nat)
    requires a == 8 || a == 16
    ensures n <= r < n + a && r % a == 0
  {
    if a == 8 then (n + 7) / 8 * 8 else (n + 15) / 16 * 16
  }

  /** Offset below the frame pointer of the first `n` locals, laid out in list order. */
  function Offset(locals: seq<Ty>, n: nat): nat
    requires n <= |locals|
  {
    if n == 0 then 0 else AlignUp(Offset(locals, n - 1) + locals[n - 1].Size(), 8)
  }

  function Offsets(locals: seq<Ty>): (o: seq<nat>)
    ensures |o| == |locals| && forall i :: 0 <= i < |o| ==> o[i] == Offset(locals, i + 1)
  {
    seq(|locals|, i requires 0 <= i < |locals| => Offset(locals, i + 1))
  }

  function FrameSize(locals: seq<Ty>): (r: nat)
    ensures r % 16 == 0
  {
    AlignUp(Offset(locals, |locals|), 16)
  }

  /** Type and offset of a local. */
  datatype Slot = Slot(ty: Ty, off: nat)

  /** The slots of the parameters, in argument order. */
  function ParamSlots(f: Func): (r: seq<Slot>)
    ensures |r| == |f.params|
  {
    seq(|f.params|, i requires 0 <= i < |f.params| =>
      if f.params[i] < |f.locals| then Slot(f.locals[f.params[i]], Offset(f.locals, f.params[i] + 1))
      else Slot(Int, 0))
  }

  lemma {:induction false} OffsetsGrow(locals: seq<Ty>, i: nat, j: nat)
    requires i < j <= |locals|
    ensures Offset(locals, i) + locals[j - 1].Size() <= Offset(locals, j)
    ensures Offset(locals, i) <= Offset(locals, j)
    decreases j
  {
    if i < j - 1 {
      OffsetsGrow(locals, i, j - 1);
    }
  }

  /**
   Slots are disjoint, 8-byte aligned and inside the frame: slot `i` is the byte range
   from `-o[i]` to `-o[i] + size`, relative to the frame pointer.
   */
  lemma SlotsDisjoint(locals: seq<Ty>, i: nat, j: nat)
    requires i < j < |locals|
    ensures var o := Offsets(locals); o[i] + locals[j].Size() <= o[j]
    ensures Offsets(locals)[i] % 8 == 0
    ensures Offsets(locals)[j] <= FrameSize(locals)
    ensures locals[i].Size() <= Offsets(locals)[i]
  {
    OffsetsGrow(locals, i + 1, j + 1);
    if j + 1 < |locals| {
      OffsetsGrow(locals, j + 1, |locals|);
    }
  }
}
