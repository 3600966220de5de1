/**
 The expression grammar as its own nonterminals, each with its operators and nodes written out; the
 parser by levels parses exactly these.
 */
module Levels {
  import opened Common
  import opened Memory
  import opened Csyntax
  import opened Grammar
  import opened ParsePrint

  // ---------- primary = num | str | ident | ident "(" args ")" | "(" expr ")" ----------

  function PrimaryExpr(ts: seq<Tok>, sc: Scope): (r: Parse<Typed>)
    ensures r.Ok? ==> |r.rest| < |ts|
  {
    if At(ts, "(") then
      match Parsed(0, ts[1..], sc)
      case Fail => Fail
      case Ok(x, rest) => if At(rest, ")") then Ok(x, rest[1..]) else Fail
    else if |ts| == 0 then Fail
    else match ts[0]
      case TNum(v) => Ok(Typed(Num(v), Int), ts[1..])
      case TStr(a) => Ok(Typed(StrLit(a), Ptr(Char)), ts[1..])
      case TId(name) =>
        if At(ts[1..], "(") then
          match CallArgs(ts[2..], sc)
          case Fail => Fail
          case Ok(args, rest) => Ok(Typed(Call(name, args), Int), rest)
        else if name in sc.vars then Ok(Typed(VarRef(sc.vars[name].0, sc.vars[name].1), sc.vars[name].1), ts[1..])
        else Fail
      case P(_) => Fail
  }

  /** args = (expr ("," expr)*)? ")", with the opening parenthesis already read. */
  function CallArgs(ts: seq<Tok>, sc: Scope): (r: Parse<Args>)
    ensures r.Ok? ==> |r.rest| < |ts|
  {
    if At(ts, ")") then Ok(NoArgs, ts[1..]) else OneOrMore(ts, sc)
  }

  function OneOrMore(ts: seq<Tok>, sc: Scope): (r: Parse<Args>)
    ensures r.Ok? ==> |r.rest| < |ts|
    decreases |ts|
  {
    match Parsed(0, ts, sc)
    case Fail => Fail
    case Ok(x, rest) =>
      if At(rest, ",") then
        match OneOrMore(rest[1..], sc)
        case Fail => Fail
        case Ok(more, rest') => Ok(Arg(x.e, more), rest')
      else if At(rest, ")") then Ok(Arg(x.e, NoArgs), rest[1..])
      else Fail
  }

  // ---------- postfix = primary ("[" expr "]" | "." ident | "->" ident)* ----------

  function PostfixExpr(ts: seq<Tok>, sc: Scope): (r: Parse<Typed>)
    ensures r.Ok? ==> |r.rest| < |ts|
  {
    match PrimaryExpr(ts, sc)
    case Fail => Fail
    case Ok(a, rest) => PostfixTail(a, rest, sc)
  }

  function PostfixTail(a: Typed, ts: seq<Tok>, sc: Scope): (r: Parse<Typed>)
    ensures r.Ok? ==> |r.rest| <= |ts|
    decreases |ts|
  {
    if At(ts, "[") then
      match Parsed(0, ts[1..], sc)
      case Fail => Fail
      case Ok(i, rest) =>
        if !At(rest, "]") then Fail
        else match Sum(a, i)
          case None => Fail
          case Some(s) =>
            var ty := if s.ty.Ptr? then s.ty.base else Int;
            PostfixTail(Typed(Deref(s.e, ty), ty), rest[1..], sc)
    else if At(ts, ".") then
      if |ts| >= 2 && ts[1].TId? && a.ty.Struct? && (a.ty, ts[1].name) in sc.members then
        var m := sc.members[(a.ty, ts[1].name)];
        PostfixTail(Typed(Member(a.e, m.0, m.1), m.1), ts[2..], sc)
      else Fail
    else if At(ts, "->") then
      if |ts| >= 2 && ts[1].TId? && a.ty.Ptr? && a.ty.base.Struct? && (a.ty.base, ts[1].name) in sc.members then
        var m := sc.members[(a.ty.base, ts[1].name)];
        PostfixTail(Typed(Member(Deref(a.e, a.ty.base), m.0, m.1), m.1), ts[2..], sc)
      else Fail
    else Ok(a, ts)
  }

  // ---------- unary = ("sizeof" | "+" | "-" | "!" | "*" | "&") unary | postfix ----------

  function UnaryExpr(ts: seq<Tok>, sc: Scope): (r: Parse<Typed>)
    ensures r.Ok? ==> |r.rest| < |ts|
    decreases |ts|
  {
    if At(ts, "sizeof") || At(ts, "+") || At(ts, "-") || At(ts, "!") || At(ts, "*") || At(ts, "&") then
      match UnaryExpr(ts[1..], sc)
      case Fail => Fail
      case Ok(x, rest) =>
        if At(ts, "sizeof") then Ok(Typed(Num(Wrap(x.ty.Size())), Int), rest)
        else if At(ts, "+") then Ok(x, rest)
        else if At(ts, "-") then Ok(Typed(Neg(x.e), Int), rest)
        else if At(ts, "!") then Ok(Typed(Not(x.e), Int), rest)
        else if At(ts, "&") then Ok(Typed(AddrOf(x.e), Ptr(x.ty)), rest)
        else match Elem(x.ty)
          case None => Fail
          case Some(t) => Ok(Typed(Deref(x.e, t), t), rest)
    else PostfixExpr(ts, sc)
  }

  // ---------- mul = unary ("*" | "/" | "%" unary)* ----------

  function MulExpr(ts: seq<Tok>, sc: Scope): Parse<Typed> {
    match UnaryExpr(ts, sc)
    case Fail => Fail
    case Ok(l, rest) => MulTail(l, rest, sc)
  }

  function MulTail(l: Typed, ts: seq<Tok>, sc: Scope): (r: Parse<Typed>)
    ensures r.Ok? ==> |r.rest| <= |ts|
    decreases |ts|
  {
    if At(ts, "*") || At(ts, "/") || At(ts, "%") then
      match UnaryExpr(ts[1..], sc)
      case Fail => Fail
      case Ok(x, rest) =>
        var op := if At(ts, "*") then Mul else if At(ts, "/") then Div else Mod;
        MulTail(Typed(Binary(op, l.e, x.e), Int), rest, sc)
    else Ok(l, ts)
  }

  // ---------- add = mul ("+" | "-" mul)* ----------

  function AddExpr(ts: seq<Tok>, sc: Scope): Parse<Typed> {
    match MulExpr(ts, sc)
    case Fail => Fail
    case Ok(l, rest) => AddTail(l, rest, sc)
  }

  function AddTail(l: Typed, ts: seq<Tok>, sc: Scope): Parse<Typed>
    decreases |ts|
  {
    if At(ts, "+") || At(ts, "-") then
      match MulExpr(ts[1..], sc)
      case Fail => Fail
      case Ok(x, rest) =>
        assert |rest| < |ts| by { MulIs(ts[1..], sc); }
        match if At(ts, "+") then Sum(l, x) else Difference(l, x)
        case None => Fail
        case Some(n) => AddTail(n, rest, sc)
    else Ok(l, ts)
  }

  /** The type a pointer or array points to. */
  function Elem(ty: Ty): Option<Ty> {
    match ty
    case Ptr(t) => Some(t)
    case Array(t, _) => Some(t)
    case _ => None
  }

  /** A pointer and a number add up to a pointer that many elements on; two pointers do not add up. */
  function Sum(l: Typed, r: Typed): Option<Typed> {
    match (Elem(l.ty), Elem(r.ty))
    case (None, None) => Some(Typed(Binary(Add, l.e, r.e), Int))
    case (Some(t), None) => Some(Typed(Binary(Add, l.e, Binary(Mul, r.e, Num(Wrap(t.Size())))), Ptr(t)))
    case (None, Some(t)) => Some(Typed(Binary(Add, r.e, Binary(Mul, l.e, Num(Wrap(t.Size())))), Ptr(t)))
    case (Some(_), Some(_)) => None
  }

  function Difference(l: Typed, r: Typed): Option<Typed> {
    match (Elem(l.ty), Elem(r.ty))
    case (None, None) => Some(Typed(Binary(Sub, l.e, r.e), Int))
    case (Some(t), None) => Some(Typed(Binary(Sub, l.e, Binary(Mul, r.e, Num(Wrap(t.Size())))), Ptr(t)))
    case (Some(t), Some(_)) => Some(Typed(Binary(Div, Binary(Sub, l.e, r.e), Num(Wrap(t.Size()))), Int))
    case (None, Some(_)) => None
  }

  // ---------- relational = add ("<" | "<=" | ">" | ">=" add)* ----------

  function RelExpr(ts: seq<Tok>, sc: Scope): Parse<Typed> {
    match AddExpr(ts, sc)
    case Fail => Fail
    case Ok(l, rest) => RelTail(l, rest, sc)
  }

  function RelTail(l: Typed, ts: seq<Tok>, sc: Scope): Parse<Typed>
    decreases |ts|
  {
    if At(ts, "<") || At(ts, "<=") || At(ts, ">") || At(ts, ">=") then
      match AddExpr(ts[1..], sc)
      case Fail => Fail
      case Ok(x, rest) =>
        assert |rest| < |ts| by { AddIs(ts[1..], sc); }
        var n := if At(ts, "<") then Binary(Lt, l.e, x.e) else if At(ts, "<=") then Binary(Le, l.e, x.e)
                 else if At(ts, ">") then Binary(Lt, x.e, l.e) else Binary(Le, x.e, l.e);
        RelTail(Typed(n, Int), rest, sc)
    else Ok(l, ts)
  }

  // ---------- equality = relational ("==" | "!=" relational)* ----------

  function EqExpr(ts: seq<Tok>, sc: Scope): Parse<Typed> {
    match RelExpr(ts, sc)
    case Fail => Fail
    case Ok(l, rest) => EqTail(l, rest, sc)
  }

  function EqTail(l: Typed, ts: seq<Tok>, sc: Scope): Parse<Typed>
    decreases |ts|
  {
    if At(ts, "==") || At(ts, "!=") then
      match RelExpr(ts[1..], sc)
      case Fail => Fail
      case Ok(x, rest) =>
        assert |rest| < |ts| by { RelIs(ts[1..], sc); }
        EqTail(Typed(Binary(if At(ts, "==") then Eq else Ne, l.e, x.e), Int), rest, sc)
    else Ok(l, ts)
  }

  // ---------- logand = equality ("&&" equality)*, logor = logand ("||" logand)* ----------

  function AndExpr(ts: seq<Tok>, sc: Scope): Parse<Typed> {
    match EqExpr(ts, sc)
    case Fail => Fail
    case Ok(l, rest) => AndTail(l, rest, sc)
  }

  function AndTail(l: Typed, ts: seq<Tok>, sc: Scope): Parse<Typed>
    decreases |ts|
  {
    if At(ts, "&&") then
      match EqExpr(ts[1..], sc)
      case Fail => Fail
      case Ok(x, rest) =>
        assert |rest| < |ts| by { EqIs(ts[1..], sc); }
        AndTail(Typed(LogAnd(l.e, x.e), Int), rest, sc)
    else Ok(l, ts)
  }

  function OrExpr(ts: seq<Tok>, sc: Scope): Parse<Typed> {
    match AndExpr(ts, sc)
    case Fail => Fail
    case Ok(l, rest) => OrTail(l, rest, sc)
  }

  function OrTail(l: Typed, ts: seq<Tok>, sc: Scope): Parse<Typed>
    decreases |ts|
  {
    if At(ts, "||") then
      match AndExpr(ts[1..], sc)
      case Fail => Fail
      case Ok(x, rest) =>
        assert |rest| < |ts| by { AndIs(ts[1..], sc); }
        OrTail(Typed(LogOr(l.e, x.e), Int), rest, sc)
    else Ok(l, ts)
  }

  // ---------- assign = logor ("=" assign)? ----------

  function AssignExpr(ts: seq<Tok>, sc: Scope): Parse<Typed>
    decreases |ts|
  {
    match OrExpr(ts, sc)
    case Fail => Fail
    case Ok(l, rest) =>
      if !At(rest, "=") then Ok(l, rest)
      else
        assert |rest| < |ts| by { OrIs(ts, sc); }
        match AssignExpr(rest[1..], sc)
        case Fail => Fail
        case Ok(r, rest') => Ok(Typed(Assign(l.e, r.e), l.ty), rest')
  }

  // ---------- the parser by levels parses these ----------

  lemma PrimaryIs(ts: seq<Tok>, sc: Scope)
    ensures Parsed(9, ts, sc) == PrimaryExpr(ts, sc)
  {
    if |ts| > 0 && ts[0].TId? && At(ts[1..], "(") {
      CallArgsIs(ts[2..], sc);
    }
  }

  lemma CallArgsIs(ts: seq<Tok>, sc: Scope)
    ensures Arguments(ts, sc) == CallArgs(ts, sc)
  {
    OneOrMoreIs(ts, sc);
  }

  lemma {:induction false} OneOrMoreIs(ts: seq<Tok>, sc: Scope)
    ensures ArgumentList(ts, sc) == OneOrMore(ts, sc)
    decreases |ts|
  {
    hide Parsed;
    var x := Parsed(0, ts, sc);
    if x.Ok? && At(x.rest, ",") {
      OneOrMoreIs(x.rest[1..], sc);
    }
  }

  lemma PostfixIs(ts: seq<Tok>, sc: Scope)
    ensures Parsed(8, ts, sc) == PostfixExpr(ts, sc)
  {
    hide PrimaryExpr;
    PrimaryIs(ts, sc);
    var a := Parsed(9, ts, sc);
    if a.Ok? {
      PostfixTailIs(a.node, a.rest, sc);
    }
  }

  lemma {:induction false} PostfixTailIs(a: Typed, ts: seq<Tok>, sc: Scope)
    ensures Suffixes(a, ts, sc) == PostfixTail(a, ts, sc)
    decreases |ts|
  {
    hide Parsed, MakeAdd, MakeSub, Sum, Difference;
    if At(ts, "[") {
      var x := Parsed(0, ts[1..], sc);
      if x.Ok? && At(x.rest, "]") {
        SumIs(a, x.node);
        var n := MakeIndex(a, x.node);
        if n.Some? {
          PostfixTailIs(n.value, x.rest[1..], sc);
        }
      }
    } else if (At(ts, ".") || At(ts, "->")) && |ts| >= 2 && ts[1].TId? {
      var n := if At(ts, ".") then MakeDot(a, ts[1].name, sc) else MakeArrow(a, ts[1].name, sc);
      if n.Some? {
        PostfixTailIs(n.value, ts[2..], sc);
      }
    }
  }

  lemma {:induction false} UnaryIs(ts: seq<Tok>, sc: Scope)
    ensures Parsed(7, ts, sc) == UnaryExpr(ts, sc)
    decreases |ts|
  {
    hide PostfixExpr;
    if |ts| > 0 && Prefix(ts[0]) {
      UnaryIs(ts[1..], sc);
    } else {
      PostfixIs(ts, sc);
    }
  }

  lemma MulIs(ts: seq<Tok>, sc: Scope)
    ensures Parsed(6, ts, sc) == MulExpr(ts, sc)
  {
    hide UnaryExpr;
    UnaryIs(ts, sc);
    var l := Parsed(7, ts, sc);
    if l.Ok? {
      MulTailIs(l.node, l.rest, sc);
    }
  }

  lemma {:induction false} MulTailIs(l: Typed, ts: seq<Tok>, sc: Scope)
    ensures More(6, l, ts, sc) == MulTail(l, ts, sc)
    decreases |ts|
  {
    hide Parsed, UnaryExpr;
    if |ts| > 0 && Strength(ts[0]) == 6 {
      UnaryIs(ts[1..], sc);
      var x := Parsed(7, ts[1..], sc);
      if x.Ok? {
        MulTailIs(Combine(ts[0], l, x.node).value, x.rest, sc);
      }
    }
  }

  lemma SumIs(l: Typed, r: Typed)
    ensures MakeAdd(l, r) == Sum(l, r) && MakeSub(l, r) == Difference(l, r)
  {
  }

  lemma AddIs(ts: seq<Tok>, sc: Scope)
    ensures Parsed(5, ts, sc) == AddExpr(ts, sc)
  {
    hide MulExpr;
    MulIs(ts, sc);
    var l := Parsed(6, ts, sc);
    if l.Ok? {
      AddTailIs(l.node, l.rest, sc);
    }
  }

  lemma {:induction false} AddTailIs(l: Typed, ts: seq<Tok>, sc: Scope)
    ensures More(5, l, ts, sc) == AddTail(l, ts, sc)
    decreases |ts|
  {
    hide Parsed, MulExpr, MakeAdd, MakeSub, Sum, Difference;
    if |ts| > 0 && Strength(ts[0]) == 5 {
      MulIs(ts[1..], sc);
      var x := Parsed(6, ts[1..], sc);
      if x.Ok? {
        SumIs(l, x.node);
        var n := Combine(ts[0], l, x.node);
        if n.Some? {
          AddTailIs(n.value, x.rest, sc);
        }
      }
    }
  }

  lemma RelIs(ts: seq<Tok>, sc: Scope)
    ensures Parsed(4, ts, sc) == RelExpr(ts, sc)
  {
    hide AddExpr;
    AddIs(ts, sc);
    var l := Parsed(5, ts, sc);
    if l.Ok? {
      RelTailIs(l.node, l.rest, sc);
    }
  }

  lemma {:induction false} RelTailIs(l: Typed, ts: seq<Tok>, sc: Scope)
    ensures More(4, l, ts, sc) == RelTail(l, ts, sc)
    decreases |ts|
  {
    hide Parsed, AddExpr;
    if |ts| > 0 && Strength(ts[0]) == 4 {
      AddIs(ts[1..], sc);
      var x := Parsed(5, ts[1..], sc);
      if x.Ok? {
        RelTailIs(Combine(ts[0], l, x.node).value, x.rest, sc);
      }
    }
  }

  lemma EqIs(ts: seq<Tok>, sc: Scope)
    ensures Parsed(3, ts, sc) == EqExpr(ts, sc)
  {
    hide RelExpr;
    RelIs(ts, sc);
    var l := Parsed(4, ts, sc);
    if l.Ok? {
      EqTailIs(l.node, l.rest, sc);
    }
  }

  lemma {:induction false} EqTailIs(l: Typed, ts: seq<Tok>, sc: Scope)
    ensures More(3, l, ts, sc) == EqTail(l, ts, sc)
    decreases |ts|
  {
    hide Parsed, RelExpr;
    if |ts| > 0 && Strength(ts[0]) == 3 {
      RelIs(ts[1..], sc);
      var x := Parsed(4, ts[1..], sc);
      if x.Ok? {
        EqTailIs(Combine(ts[0], l, x.node).value, x.rest, sc);
      }
    }
  }

  lemma AndIs(ts: seq<Tok>, sc: Scope)
    ensures Parsed(2, ts, sc) == AndExpr(ts, sc)
  {
    hide EqExpr;
    EqIs(ts, sc);
    var l := Parsed(3, ts, sc);
    if l.Ok? {
      AndTailIs(l.node, l.rest, sc);
    }
  }

  lemma {:induction false} AndTailIs(l: Typed, ts: seq<Tok>, sc: Scope)
    ensures More(2, l, ts, sc) == AndTail(l, ts, sc)
    decreases |ts|
  {
    hide Parsed, EqExpr;
    if |ts| > 0 && Strength(ts[0]) == 2 {
      EqIs(ts[1..], sc);
      var x := Parsed(3, ts[1..], sc);
      if x.Ok? {
        AndTailIs(Combine(ts[0], l, x.node).value, x.rest, sc);
      }
    }
  }

  lemma OrIs(ts: seq<Tok>, sc: Scope)
    ensures Parsed(1, ts, sc) == OrExpr(ts, sc)
  {
    hide AndExpr;
    AndIs(ts, sc);
    var l := Parsed(2, ts, sc);
    if l.Ok? {
      OrTailIs(l.node, l.rest, sc);
    }
  }

  lemma {:induction false} OrTailIs(l: Typed, ts: seq<Tok>, sc: Scope)
    ensures More(1, l, ts, sc) == OrTail(l, ts, sc)
    decreases |ts|
  {
    hide Parsed, AndExpr;
    if |ts| > 0 && Strength(ts[0]) == 1 {
      AndIs(ts[1..], sc);
      var x := Parsed(2, ts[1..], sc);
      if x.Ok? {
        OrTailIs(Combine(ts[0], l, x.node).value, x.rest, sc);
      }
    }
  }

  lemma {:induction false} AssignIs(ts: seq<Tok>, sc: Scope)
    ensures Parsed(0, ts, sc) == AssignExpr(ts, sc)
    decreases |ts|
  {
    hide OrExpr;
    OrIs(ts, sc);
    var l := Parsed(1, ts, sc);
    if l.Ok? && At(l.rest, "=") {
      AssignIs(l.rest[1..], sc);
    }
  }

  /** The parser by levels is the grammar's nonterminals. */
  lemma LevelsAreGrammar(ts: seq<Tok>, sc: Scope)
    ensures Parsed(0, ts, sc) == AssignExpr(ts, sc) && Parsed(1, ts, sc) == OrExpr(ts, sc)
    ensures Parsed(2, ts, sc) == AndExpr(ts, sc) && Parsed(3, ts, sc) == EqExpr(ts, sc)
    ensures Parsed(4, ts, sc) == RelExpr(ts, sc) && Parsed(5, ts, sc) == AddExpr(ts, sc) && Parsed(6, ts, sc) == MulExpr(ts, sc)
    ensures Parsed(7, ts, sc) == UnaryExpr(ts, sc) && Parsed(8, ts, sc) == PostfixExpr(ts, sc) && Parsed(9, ts, sc) == PrimaryExpr(ts, sc)
  {
    hide Parsed, AssignExpr, OrExpr, AndExpr, EqExpr, RelExpr, AddExpr, MulExpr, UnaryExpr, PostfixExpr, PrimaryExpr;
    AssignIs(ts, sc);
    OrIs(ts, sc);
    AndIs(ts, sc);
    EqIs(ts, sc);
    RelIs(ts, sc);
    AddIs(ts, sc);
    MulIs(ts, sc);
    UnaryIs(ts, sc);
    PostfixIs(ts, sc);
    PrimaryIs(ts, sc);
  }

  // ---------- how operators group ----------

  /** The operators of each level, loosest first. */
  const OPERATORS: seq<set<string>> :=
    [{"||"}, {"&&"}, {"==", "!="}, {"<", "<=", ">", ">="}, {"+", "-"}, {"*", "/", "%"}]

  lemma StrengthIs(i: nat, o: string)
    requires i < 6 && o in OPERATORS[i]
    ensures Strength(P(o)) == i + 1
  {
  }

  /** Anything that is written without an operator of these levels and without `=` on the outside. */
  predicate Operand(s: Src) {
    WellFormed(s) && !s.SBin? && !s.SAssign?
  }

  /**
   `a o b p c` groups to the tighter of its two operators, and to the left when they are of one
   level, whatever the operands.
   */
  lemma Grouping(i: nat, o: string, j: nat, p: string, a: Src, b: Src, c: Src, sc: Scope)
    requires i < 6 && o in OPERATORS[i] && j < 6 && p in OPERATORS[j]
    requires Operand(a) && Operand(b) && Operand(c)
    ensures var ts := Body(a) + ([P(o)] + (Body(b) + ([P(p)] + Body(c))));
            var s := if i < j then SBin(P(o), a, SBin(P(p), b, c)) else SBin(P(p), SBin(P(o), a, b), c);
            Meaning(s, sc).Some? ==> Parsed(0, ts, sc) == Ok(Meaning(s, sc).value, [])
  {
    hide Parsed, Meaning, Body, WellFormed, Strength;
    StrengthIs(i, o);
    StrengthIs(j, p);
    var s := if i < j then SBin(P(o), a, SBin(P(p), b, c)) else SBin(P(p), SBin(P(o), a, b), c);
    var ts := Body(a) + ([P(o)] + (Body(b) + ([P(p)] + Body(c))));
    assert WellFormed(s) by { BinWellFormed(P(o), P(p), a, b, c); }
    assert Print(s, 0) == ts by {
      if i < j {
        BinBody(P(o), a, SBin(P(p), b, c));
        BinBody(P(p), b, c);
      } else {
        BinBody(P(p), SBin(P(o), a, b), c);
        BinBody(P(o), a, b);
        Regroup(Body(a), [P(o)], Body(b), [P(p)] + Body(c));
      }
    }
    if Meaning(s, sc).Some? {
      ParsePrinted(s, [], sc);
      assert ts + [] == ts;
    }
  }

  lemma Regroup(a: seq<Tok>, o: seq<Tok>, b: seq<Tok>, c: seq<Tok>)
    ensures (a + (o + b)) + c == a + (o + (b + c))
  {
  }

  lemma BinWellFormed(o: Tok, p: Tok, a: Src, b: Src, c: Src)
    requires Strength(o) > 0 && Strength(p) > 0 && WellFormed(a) && WellFormed(b) && WellFormed(c)
    ensures WellFormed(SBin(o, a, SBin(p, b, c))) && WellFormed(SBin(p, SBin(o, a, b), c))
  {
    assert WellFormed(SBin(p, b, c)) && WellFormed(SBin(o, a, b));
  }

  lemma BinBody(o: Tok, l: Src, r: Src)
    ensures Body(SBin(o, l, r)) == Print(l, Strength(o)) + ([o] + Print(r, Strength(o) + 1))
  {
  }
}
