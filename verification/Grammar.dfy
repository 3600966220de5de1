/**
 The expression grammar: tokens, the trees they are parsed into, and a recursive-descent parser
 as a function on token lists. Variables are resolved and operators desugared on the way.
 */
module Grammar {
  import opened Common
  import opened Memory
  import opened Csyntax

  /** Punctuation and keywords are `P`. */
  datatype Tok = TNum(v: U64) | TStr(addr: U64) | TId(name: string) | P(s: string)

  /** A parsed expression and its type. */
  datatype Typed = Typed(e: Expr, ty: Ty)

  /** Variables in scope, and the members of struct types with their offsets. */
  datatype Scope = Scope(vars: map<string, (Var, Ty)>, members: map<(Ty, string), (nat, Ty)>)

  // ---------- building nodes ----------

  predicate PtrLike(ty: Ty) {
    ty.Ptr? || ty.Array?
  }

  function BaseOf(ty: Ty): Ty {
    if ty.Ptr? then ty.base else if ty.Array? then ty.elem else Int
  }

  function Scaled(e: Expr, ty: Ty): Expr {
    Binary(Mul, e, Num(Wrap(BaseOf(ty).Size())))
  }

  /** `+`, where a pointer counts in elements; the pointer ends up on the left. */
  function MakeAdd(l: Typed, r: Typed): Option<Typed> {
    if !PtrLike(l.ty) && !PtrLike(r.ty) then Some(Typed(Binary(Add, l.e, r.e), Int))
    else if PtrLike(l.ty) && PtrLike(r.ty) then None
    else if PtrLike(l.ty) then Some(Typed(Binary(Add, l.e, Scaled(r.e, l.ty)), Ptr(BaseOf(l.ty))))
    else Some(Typed(Binary(Add, r.e, Scaled(l.e, r.ty)), Ptr(BaseOf(r.ty))))
  }

  /** `-`: the difference of two pointers counts elements. */
  function MakeSub(l: Typed, r: Typed): Option<Typed> {
    if !PtrLike(l.ty) && !PtrLike(r.ty) then Some(Typed(Binary(Sub, l.e, r.e), Int))
    else if PtrLike(l.ty) && !PtrLike(r.ty) then Some(Typed(Binary(Sub, l.e, Scaled(r.e, l.ty)), Ptr(BaseOf(l.ty))))
    else if PtrLike(l.ty) then Some(Typed(Binary(Div, Binary(Sub, l.e, r.e), Num(Wrap(BaseOf(l.ty).Size()))), Int))
    else None
  }

  /** Binding strength of a binary operator, 1 (loosest) to 6; 0 for anything else. */
  function Strength(t: Tok): nat {
    if t == P("||") then 1
    else if t == P("&&") then 2
    else if t == P("==") || t == P("!=") then 3
    else if t == P("<") || t == P("<=") || t == P(">") || t == P(">=") then 4
    else if t == P("+") || t == P("-") then 5
    else if t == P("*") || t == P("/") || t == P("%") then 6
    else 0
  }

  /** The node for a binary operator; `>` and `>=` swap their operands. */
  function Combine(op: Tok, l: Typed, r: Typed): Option<Typed> {
    if op == P("*") then Some(Typed(Binary(Mul, l.e, r.e), Int))
    else if op == P("/") then Some(Typed(Binary(Div, l.e, r.e), Int))
    else if op == P("%") then Some(Typed(Binary(Mod, l.e, r.e), Int))
    else if op == P("+") then MakeAdd(l, r)
    else if op == P("-") then MakeSub(l, r)
    else if op == P("<") then Some(Typed(Binary(Lt, l.e, r.e), Int))
    else if op == P("<=") then Some(Typed(Binary(Le, l.e, r.e), Int))
    else if op == P(">") then Some(Typed(Binary(Lt, r.e, l.e), Int))
    else if op == P(">=") then Some(Typed(Binary(Le, r.e, l.e), Int))
    else if op == P("==") then Some(Typed(Binary(Eq, l.e, r.e), Int))
    else if op == P("!=") then Some(Typed(Binary(Ne, l.e, r.e), Int))
    else if op == P("&&") then Some(Typed(LogAnd(l.e, r.e), Int))
    else if op == P("||") then Some(Typed(LogOr(l.e, r.e), Int))
    else None
  }

  predicate Prefix(t: Tok) {
    t == P("sizeof") || t == P("+") || t == P("-") || t == P("!") || t == P("*") || t == P("&")
  }

  /** The node for a prefix operator; `sizeof` becomes a number, `+` nothing. */
  function Apply(op: Tok, x: Typed): Option<Typed> {
    if op == P("sizeof") then Some(Typed(Num(Wrap(x.ty.Size())), Int))
    else if op == P("+") then Some(x)
    else if op == P("-") then Some(Typed(Neg(x.e), Int))
    else if op == P("!") then Some(Typed(Not(x.e), Int))
    else if op == P("*") then if PtrLike(x.ty) then Some(Typed(Deref(x.e, BaseOf(x.ty)), BaseOf(x.ty))) else None
    else if op == P("&") then Some(Typed(AddrOf(x.e), Ptr(x.ty)))
    else None
  }

  /** `a[i]` is `*(a + i)`. */
  function MakeIndex(a: Typed, i: Typed): Option<Typed> {
    var s := MakeAdd(a, i);
    if s.None? then None
    else
      var ty := if s.value.ty.Ptr? then s.value.ty.base else Int;
      Some(Typed(Deref(s.value.e, ty), ty))
  }

  function MakeDot(a: Typed, name: string, sc: Scope): Option<Typed> {
    if !a.ty.Struct? || (a.ty, name) !in sc.members then None
    else
      var (off, ty) := sc.members[(a.ty, name)];
      Some(Typed(Member(a.e, off, ty), ty))
  }

  /** `p->m` is `(*p).m`. */
  function MakeArrow(a: Typed, name: string, sc: Scope): Option<Typed> {
    if !a.ty.Ptr? then None else MakeDot(Typed(Deref(a.e, a.ty.base), a.ty.base), name, sc)
  }

  function MakeVar(name: string, sc: Scope): Option<Typed> {
    if name !in sc.vars then None
    else
      var (v, ty) := sc.vars[name];
      Some(Typed(VarRef(v, ty), ty))
  }

  // ---------- parsing ----------

  /** What was parsed and what is left; `None` after an error. */
  datatype Parse<T> = Fail | Ok(node: T, rest: seq<Tok>)

  predicate At(ts: seq<Tok>, s: string) {
    |ts| > 0 && ts[0] == P(s)
  }

  /**
   Levels: 0 assignment, 1 to 6 the binary operators by strength, 7 prefix operators, 8 postfix
   operators, 9 primaries.
   */
  function Parsed(k: nat, ts: seq<Tok>, sc: Scope): (r: Parse<Typed>)
    requires k <= 9
    ensures r.Ok? ==> |r.rest| < |ts|
    decreases |ts|, 20 - k
  {
    if k == 0 then
      var l := Parsed(1, ts, sc);
      if l.Fail? || !At(l.rest, "=") then l
      else
        var r := Parsed(0, l.rest[1..], sc);
        if r.Fail? then Fail else Ok(Typed(Assign(l.node.e, r.node.e), l.node.ty), r.rest)
    else if k <= 6 then
      var l := Parsed(k + 1, ts, sc);
      if l.Fail? then Fail else More(k, l.node, l.rest, sc)
    else if k == 7 then
      if |ts| > 0 && Prefix(ts[0]) then
        var x := Parsed(7, ts[1..], sc);
        if x.Fail? then Fail
        else
          var n := Apply(ts[0], x.node);
          if n.None? then Fail else Ok(n.value, x.rest)
      else Parsed(8, ts, sc)
    else if k == 8 then
      var a := Parsed(9, ts, sc);
      if a.Fail? then Fail else Suffixes(a.node, a.rest, sc)
    else if |ts| == 0 then Fail
    else
      match ts[0]
      case TNum(v) => Ok(Typed(Num(v), Int), ts[1..])
      case TStr(a) => Ok(Typed(StrLit(a), Ptr(Char)), ts[1..])
      case TId(name) =>
        if At(ts[1..], "(") then
          var a := Arguments(ts[2..], sc);
          if a.Fail? then Fail else Ok(Typed(Call(name, a.node), Int), a.rest)
        else
          var v := MakeVar(name, sc);
          if v.None? then Fail else Ok(v.value, ts[1..])
      case P(s) =>
        if s != "(" then Fail
        else
          var x := Parsed(0, ts[1..], sc);
          if x.Fail? || !At(x.rest, ")") then Fail else Ok(x.node, x.rest[1..])
  }

  /** Further operators of strength `k`, grouped to the left. */
  function More(k: nat, l: Typed, ts: seq<Tok>, sc: Scope): (r: Parse<Typed>)
    requires 1 <= k <= 6
    ensures r.Ok? ==> |r.rest| <= |ts|
    decreases |ts|, 10
  {
    if |ts| > 0 && Strength(ts[0]) == k then
      var x := Parsed(k + 1, ts[1..], sc);
      if x.Fail? then Fail
      else
        var n := Combine(ts[0], l, x.node);
        if n.None? then Fail else More(k, n.value, x.rest, sc)
    else Ok(l, ts)
  }

  /** Further `[i]`, `.m` and `->m`. */
  function Suffixes(a: Typed, ts: seq<Tok>, sc: Scope): (r: Parse<Typed>)
    ensures r.Ok? ==> |r.rest| <= |ts|
    decreases |ts|, 10
  {
    if At(ts, "[") then
      var x := Parsed(0, ts[1..], sc);
      if x.Fail? || !At(x.rest, "]") then Fail
      else
        var n := MakeIndex(a, x.node);
        if n.None? then Fail else Suffixes(n.value, x.rest[1..], sc)
    else if (At(ts, ".") || At(ts, "->")) then
      if |ts| < 2 || !ts[1].TId? then Fail
      else
        var n := if At(ts, ".") then MakeDot(a, ts[1].name, sc) else MakeArrow(a, ts[1].name, sc);
        if n.None? then Fail else Suffixes(n.value, ts[2..], sc)
    else Ok(a, ts)
  }

  /** Arguments up to and including the closing parenthesis. */
  function Arguments(ts: seq<Tok>, sc: Scope): (r: Parse<Args>)
    ensures r.Ok? ==> |r.rest| < |ts|
    decreases |ts|, 30
  {
    if At(ts, ")") then Ok(NoArgs, ts[1..]) else ArgumentList(ts, sc)
  }

  function ArgumentList(ts: seq<Tok>, sc: Scope): (r: Parse<Args>)
    ensures r.Ok? ==> |r.rest| < |ts|
    decreases |ts|, 29
  {
    var x := Parsed(0, ts, sc);
    if x.Fail? then Fail
    else if At(x.rest, ",") then
      var more := ArgumentList(x.rest[1..], sc);
      if more.Fail? then Fail else Ok(Arg(x.node.e, more.node), more.rest)
    else if At(x.rest, ")") then Ok(Arg(x.node.e, NoArgs), x.rest[1..])
    else Fail
  }

  // ---------- source expressions and how they are written ----------

  datatype Src =
    | SNum(v: U64)
    | SStr(addr: U64)
    | SName(name: string)
    | SCall(fn: string, args: SrcArgs)
    | SIndex(a: Src, i: Src)
    | SDot(a: Src, name: string)
    | SArrow(a: Src, name: string)
    | SPrefix(op: Tok, x: Src)
    | SBin(op: Tok, l: Src, r: Src)
    | SAssign(l: Src, r: Src)

  datatype SrcArgs = SNone | SArg(head: Src, tail: SrcArgs)

  /** Operators are operators. */
  predicate WellFormed(s: Src) {
    match s
    case SCall(_, args) => WellFormedArgs(args)
    case SIndex(a, i) => WellFormed(a) && WellFormed(i)
    case SDot(a, _) => WellFormed(a)
    case SArrow(a, _) => WellFormed(a)
    case SPrefix(op, x) => Prefix(op) && WellFormed(x)
    case SBin(op, l, r) => Strength(op) > 0 && WellFormed(l) && WellFormed(r)
    case SAssign(l, r) => WellFormed(l) && WellFormed(r)
    case _ => true
  }

  predicate WellFormedArgs(args: SrcArgs) {
    match args
    case SNone => true
    case SArg(e, rest) => WellFormed(e) && WellFormedArgs(rest)
  }

  /** The tightest level at which an expression can stand without parentheses. */
  function Level(s: Src): nat {
    match s
    case SAssign(_, _) => 0
    case SBin(op, _, _) => Strength(op)
    case SPrefix(_, _) => 7
    case SIndex(_, _) => 8
    case SDot(_, _) => 8
    case SArrow(_, _) => 8
    case _ => 9
  }

  /** Tokens of an expression where level `k` is expected: parentheses only where needed. */
  function Print(s: Src, k: nat): seq<Tok>
    decreases s, 1
  {
    if k <= Level(s) then Body(s) else [P("(")] + Body(s) + [P(")")]
  }

  function Body(s: Src): seq<Tok>
    decreases s, 0
  {
    match s
    case SNum(v) => [TNum(v)]
    case SStr(a) => [TStr(a)]
    case SName(n) => [TId(n)]
    case SCall(f, args) => [TId(f), P("(")] + PrintArgs(args) + [P(")")]
    case SIndex(a, i) => Print(a, 8) + ([P("[")] + (Print(i, 0) + [P("]")]))
    case SDot(a, n) => Print(a, 8) + [P("."), TId(n)]
    case SArrow(a, n) => Print(a, 8) + [P("->"), TId(n)]
    case SPrefix(op, x) => [op] + Print(x, 7)
    case SBin(op, l, r) => Print(l, Strength(op)) + ([op] + Print(r, Strength(op) + 1))
    case SAssign(l, r) => Print(l, 1) + ([P("=")] + Print(r, 0))
  }

  function PrintArgs(args: SrcArgs): seq<Tok>
    decreases args, 0
  {
    match args
    case SNone => []
    case SArg(e, rest) => if rest.SNone? then Print(e, 0) else Print(e, 0) + ([P(",")] + PrintArgs(rest))
  }

  /** What an expression means as a tree; `None` if it is ill typed or a name is unknown. */
  function Meaning(s: Src, sc: Scope): Option<Typed> {
    match s
    case SNum(v) => Some(Typed(Num(v), Int))
    case SStr(a) => Some(Typed(StrLit(a), Ptr(Char)))
    case SName(n) => MakeVar(n, sc)
    case SCall(f, args) =>
      var a := MeaningOf(args, sc);
      if a.None? then None else Some(Typed(Call(f, a.value), Int))
    case SIndex(a, i) =>
      var x, y := Meaning(a, sc), Meaning(i, sc);
      if x.None? || y.None? then None else MakeIndex(x.value, y.value)
    case SDot(a, n) =>
      var x := Meaning(a, sc);
      if x.None? then None else MakeDot(x.value, n, sc)
    case SArrow(a, n) =>
      var x := Meaning(a, sc);
      if x.None? then None else MakeArrow(x.value, n, sc)
    case SPrefix(op, x) =>
      var y := Meaning(x, sc);
      if y.None? then None else Apply(op, y.value)
    case SBin(op, l, r) =>
      var x, y := Meaning(l, sc), Meaning(r, sc);
      if x.None? || y.None? then None else Combine(op, x.value, y.value)
    case SAssign(l, r) =>
      var x, y := Meaning(l, sc), Meaning(r, sc);
      if x.None? || y.None? then None else Some(Typed(Assign(x.value.e, y.value.e), x.value.ty))
  }

  function MeaningOf(args: SrcArgs, sc: Scope): Option<Args> {
    match args
    case SNone => Some(NoArgs)
    case SArg(e, rest) =>
      var x, more := Meaning(e, sc), MeaningOf(rest, sc);
      if x.None? || more.None? then None else Some(Arg(x.value.e, more.value))
  }
}
