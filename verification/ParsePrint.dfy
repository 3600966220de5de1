/**
 Parsing what was printed: the parser consumes exactly the printed tokens and returns the
 expression's meaning, whatever follows.
 */
module ParsePrint {
  import opened Grammar

  /** What follows cannot be taken as a continuation at level `k` or tighter. */
  predicate Stops(ts: seq<Tok>, k: nat) {
    |ts| == 0 ||
    (&& (Strength(ts[0]) == 0 || Strength(ts[0]) < k)
     && (k == 0 ==> ts[0] != P("="))
     && (k <= 8 ==> ts[0] != P("[") && ts[0] != P(".") && ts[0] != P("->"))
     && ts[0] != P("("))
  }

  lemma StopsMore(ts: seq<Tok>, k: nat, j: nat)
    requires Stops(ts, k) && k <= j
    ensures Stops(ts, j)
  {
  }

  /** What the parser does with `d` in hand at level `k`. */
  function Then(k: nat, d: Typed, ts: seq<Tok>, sc: Scope): Parse<Typed>
    requires k <= 9
  {
    if 1 <= k <= 6 then More(k, d, ts, sc) else if k == 8 then Suffixes(d, ts, sc) else Ok(d, ts)
  }

  /** The level at which what follows must stop for level `k` to be over with `d`. */
  function After(k: nat): nat {
    if k == 0 then 0 else if k == 9 then 9 else k + 1
  }

  lemma ThenStops(k: nat, d: Typed, ts: seq<Tok>, sc: Scope)
    requires k <= 9 && Stops(ts, k)
    ensures Then(k, d, ts, sc) == Ok(d, ts)
  {
  }

  /** From a tighter level to a looser one: nothing of the looser level precedes. */
  lemma LevelDown(k: nat, ts: seq<Tok>, d: Typed, rest: seq<Tok>, sc: Scope)
    requires k < 9 && Parsed(k + 1, ts, sc) == Ok(d, rest) && (k == 7 ==> |ts| > 0 && !Prefix(ts[0]))
    requires k == 0 ==> !At(rest, "=")
    ensures Parsed(k, ts, sc) == Then(k, d, rest, sc)
  {
  }

  /** A primary's first token is no prefix operator. */
  lemma {:induction false} FirstToken(s: Src, k: nat)
    requires WellFormed(s) && k > 7
    ensures |Print(s, k)| > 0 && !Prefix(Print(s, k)[0])
    decreases s
  {
    if k <= Level(s) {
      match s
      case SIndex(a, _) => FirstToken(a, 8);
      case SDot(a, _) => FirstToken(a, 8);
      case SArrow(a, _) => FirstToken(a, 8);
      case _ =>
    }
  }

  /**
   The heart of it: with `Print(s, k)` in front, the parser at level `k` gets to the point where
   it holds the meaning of `s` and looks at what follows.
   */
  lemma {:induction false} ReadBack(s: Src, k: nat, rest: seq<Tok>, sc: Scope)
    requires k <= 9 && WellFormed(s) && Meaning(s, sc).Some? && Stops(rest, After(k))
    ensures Parsed(k, Print(s, k) + rest, sc) == Then(k, Meaning(s, sc).value, rest, sc)
    decreases s, if k > Level(s) then 1 else 0, 10 - k
  {
    hide Parsed, Meaning, Body, WellFormed, Stops, Then;
    var d := Meaning(s, sc).value;
    if k > Level(s) && k == 9 {
      Parenthesised(s, rest, sc);
    } else if k != Level(s) {
      StopsAt(k, rest);
      ReadBack(s, k + 1, rest, sc);
      assert Print(s, k) == Print(s, k + 1);
      ThenStops(k + 1, d, rest, sc);
      if k == 7 {
        FirstToken(s, 8);
        assert (Print(s, 8) + rest)[0] == Print(s, 8)[0];
      }
      LevelDown(k, Print(s, k) + rest, d, rest, sc);
      if k == 0 { ZeroThen(d, rest, sc); }
    } else {
      OwnLevel(s, rest, sc);
    }
  }

  lemma StopsAt(k: nat, rest: seq<Tok>)
    requires k < 9 && Stops(rest, After(k))
    ensures Stops(rest, After(k + 1)) && Stops(rest, k + 1) && (k == 0 ==> !At(rest, "="))
  {
  }

  lemma ZeroThen(d: Typed, rest: seq<Tok>, sc: Scope)
    ensures Then(0, d, rest, sc) == Ok(d, rest)
  {
  }

  /** An expression in parentheses is a primary. */
  lemma {:induction false} Parenthesised(s: Src, rest: seq<Tok>, sc: Scope)
    requires WellFormed(s) && Meaning(s, sc).Some? && Level(s) < 9
    ensures Parsed(9, Print(s, 9) + rest, sc) == Then(9, Meaning(s, sc).value, rest, sc)
    decreases s, 1, 0
  {
    hide Meaning, Body, WellFormed, Stops;
    var inner := [P(")")] + rest;
    assert Stops(inner, 0) by { CloseStops(rest); }
    ReadBack(s, 0, inner, sc);
    var ts := Print(s, 9) + rest;
    assert ts == [P("(")] + (Body(s) + inner);
    assert ts[1..] == Body(s) + inner;
    assert Print(s, 0) == Body(s);
  }

  lemma CloseStops(rest: seq<Tok>)
    ensures Stops([P(")")] + rest, 0) && Stops([P("]")] + rest, 0) && Stops([P(",")] + rest, 0)
  {
  }

  /** An expression at its own level, by what it is. */
  lemma {:induction false} OwnLevel(s: Src, rest: seq<Tok>, sc: Scope)
    requires WellFormed(s) && Meaning(s, sc).Some? && Stops(rest, After(Level(s)))
    ensures Level(s) <= 9 && Parsed(Level(s), Print(s, Level(s)) + rest, sc) == Then(Level(s), Meaning(s, sc).value, rest, sc)
    decreases s, 0, 0
  {
    hide Stops, Then;
    match s
    case SNum(_) => ThenNine(Meaning(s, sc).value, rest, sc);
    case SStr(_) => ThenNine(Meaning(s, sc).value, rest, sc);
    case SName(_) => NotCall(rest); ThenNine(Meaning(s, sc).value, rest, sc);
    case SCall(_, _) => CallBack(s, rest, sc);
    case SIndex(_, _) => IndexBack(s, rest, sc);
    case SDot(_, _) => MemberBack(s, rest, sc);
    case SArrow(_, _) => MemberBack(s, rest, sc);
    case SPrefix(_, _) => PrefixBack(s, rest, sc);
    case SBin(_, _, _) => BinBack(s, rest, sc);
    case SAssign(_, _) => AssignBack(s, rest, sc);
  }

  lemma ThenNine(d: Typed, rest: seq<Tok>, sc: Scope)
    ensures Then(9, d, rest, sc) == Ok(d, rest) && Then(7, d, rest, sc) == Ok(d, rest)
  {
  }

  lemma NotCall(rest: seq<Tok>)
    requires Stops(rest, 9)
    ensures !At(rest, "(")
  {
  }

  lemma {:induction false} BinBack(s: Src, rest: seq<Tok>, sc: Scope)
    requires s.SBin? && WellFormed(s) && Meaning(s, sc).Some? && Stops(rest, Strength(s.op) + 1)
    ensures var k := Strength(s.op);
            1 <= k <= 6 && Parsed(k, Print(s, k) + rest, sc) == Then(k, Meaning(s, sc).value, rest, sc)
    decreases s, 0, -1
  {
    hide Stops, Body;
    var k := Strength(s.op);
    var tail := [s.op] + (Print(s.r, k + 1) + rest);
    assert Print(s, k) + rest == Print(s.l, k) + tail by { BinText(s, rest); }
    assert Stops(tail, k + 1) by { OpStops(s.op, Print(s.r, k + 1) + rest); }
    ReadBack(s.l, k, tail, sc);
    assert tail[1..] == Print(s.r, k + 1) + rest;
    RightOperand(s.r, k, rest, sc);
  }

  lemma BinText(s: Src, rest: seq<Tok>)
    requires s.SBin?
    ensures Print(s, Strength(s.op)) + rest == Print(s.l, Strength(s.op)) + ([s.op] + (Print(s.r, Strength(s.op) + 1) + rest))
  {
  }

  lemma OpStops(op: Tok, ts: seq<Tok>)
    requires Strength(op) > 0
    ensures Stops([op] + ts, Strength(op) + 1)
  {
  }

  lemma {:induction false} RightOperand(r: Src, k: nat, rest: seq<Tok>, sc: Scope)
    requires 1 <= k <= 6 && WellFormed(r) && Meaning(r, sc).Some? && Stops(rest, k + 1)
    ensures Parsed(k + 1, Print(r, k + 1) + rest, sc) == Ok(Meaning(r, sc).value, rest)
    decreases r, 2, 0
  {
    hide Stops, Parsed, Then, Print;
    StopsMore(rest, k + 1, After(k + 1));
    ReadBack(r, k + 1, rest, sc);
    ThenStops(k + 1, Meaning(r, sc).value, rest, sc);
  }

  lemma {:induction false} AssignBack(s: Src, rest: seq<Tok>, sc: Scope)
    requires s.SAssign? && WellFormed(s) && Meaning(s, sc).Some? && Stops(rest, 0)
    ensures Parsed(0, Print(s, 0) + rest, sc) == Then(0, Meaning(s, sc).value, rest, sc)
    decreases s, 0, -1
  {
    hide Stops, Body;
    var l, r := Meaning(s.l, sc).value, Meaning(s.r, sc).value;
    var tail := [P("=")] + (Print(s.r, 0) + rest);
    assert Print(s, 0) + rest == Print(s.l, 1) + tail by { AssignText(s, rest); }
    assert Stops(tail, 2) && Stops(tail, 1) by { EqualsStops(Print(s.r, 0) + rest); }
    ReadBack(s.l, 1, tail, sc);
    ThenStops(1, l, tail, sc);
    assert tail[1..] == Print(s.r, 0) + rest;
    ReadBack(s.r, 0, rest, sc);
  }

  lemma AssignText(s: Src, rest: seq<Tok>)
    requires s.SAssign?
    ensures Print(s, 0) + rest == Print(s.l, 1) + ([P("=")] + (Print(s.r, 0) + rest))
  {
  }

  lemma EqualsStops(ts: seq<Tok>)
    ensures Stops([P("=")] + ts, 1) && Stops([P("=")] + ts, 2)
  {
  }

  lemma {:induction false} PrefixBack(s: Src, rest: seq<Tok>, sc: Scope)
    requires s.SPrefix? && WellFormed(s) && Meaning(s, sc).Some? && Stops(rest, 8)
    ensures Parsed(7, Print(s, 7) + rest, sc) == Then(7, Meaning(s, sc).value, rest, sc)
    decreases s, 0, -1
  {
    hide Stops;
    var ts := Print(s, 7) + rest;
    assert ts == [s.op] + (Print(s.x, 7) + rest) by { PrefixText(s, rest); }
    assert ts[1..] == Print(s.x, 7) + rest;
    ReadBack(s.x, 7, rest, sc);
  }

  lemma PrefixText(s: Src, rest: seq<Tok>)
    requires s.SPrefix?
    ensures Print(s, 7) + rest == [s.op] + (Print(s.x, 7) + rest)
  {
    assert Print(s, 7) == [s.op] + Print(s.x, 7);
  }

  lemma {:induction false} IndexBack(s: Src, rest: seq<Tok>, sc: Scope)
    requires s.SIndex? && WellFormed(s) && Meaning(s, sc).Some? && Stops(rest, 9)
    ensures Parsed(8, Print(s, 8) + rest, sc) == Then(8, Meaning(s, sc).value, rest, sc)
    decreases s, 0, -1
  {
    hide Stops, Parsed, Body, MakeIndex;
    var inner := [P("]")] + rest;
    var tail := [P("[")] + (Print(s.i, 0) + inner);
    assert Print(s, 8) + rest == Print(s.a, 8) + tail by { IndexText(s, rest); }
    assert Stops(tail, 9) by { SuffixStops(Print(s.i, 0) + inner); }
    ReadBack(s.a, 8, tail, sc);
    assert Stops(inner, 0) by { CloseStops(rest); }
    ReadBack(s.i, 0, inner, sc);
    assert tail[1..] == Print(s.i, 0) + inner && inner[1..] == rest;
  }

  lemma IndexText(s: Src, rest: seq<Tok>)
    requires s.SIndex?
    ensures Print(s, 8) + rest == Print(s.a, 8) + ([P("[")] + (Print(s.i, 0) + ([P("]")] + rest)))
  {
    var b, i := Print(s.a, 8), Print(s.i, 0);
    assert b + ([P("[")] + (i + [P("]")])) + rest == b + ([P("[")] + (i + ([P("]")] + rest)));
  }

  lemma SuffixStops(ts: seq<Tok>)
    ensures Stops([P("[")] + ts, 9) && Stops([P(".")] + ts, 9) && Stops([P("->")] + ts, 9)
  {
  }

  lemma {:induction false} MemberBack(s: Src, rest: seq<Tok>, sc: Scope)
    requires (s.SDot? || s.SArrow?) && WellFormed(s) && Meaning(s, sc).Some? && Stops(rest, 9)
    ensures Parsed(8, Print(s, 8) + rest, sc) == Then(8, Meaning(s, sc).value, rest, sc)
    decreases s, 0, -1
  {
    hide Stops, Parsed, Body, MakeDot, MakeArrow;
    var p := if s.SDot? then P(".") else P("->");
    var tail := [p] + ([TId(s.name)] + rest);
    assert Print(s, 8) + rest == Print(s.a, 8) + tail by { MemberText(s, rest); }
    assert Stops(tail, 9) by { SuffixStops([TId(s.name)] + rest); }
    ReadBack(s.a, 8, tail, sc);
    assert tail[1] == TId(s.name) && tail[2..] == rest;
  }

  lemma MemberText(s: Src, rest: seq<Tok>)
    requires s.SDot? || s.SArrow?
    ensures Print(s, 8) + rest == Print(s.a, 8) + ([if s.SDot? then P(".") else P("->")] + ([TId(s.name)] + rest))
  {
  }

  lemma {:induction false} CallBack(s: Src, rest: seq<Tok>, sc: Scope)
    requires s.SCall? && WellFormed(s) && Meaning(s, sc).Some?
    ensures Parsed(9, Print(s, 9) + rest, sc) == Then(9, Meaning(s, sc).value, rest, sc)
    decreases s, 0, -1
  {
    hide Stops, Arguments;
    var ts := Print(s, 9) + rest;
    var inner := PrintArgs(s.args) + ([P(")")] + rest);
    assert ts == [TId(s.fn)] + ([P("(")] + inner) by { CallText(s, rest); }
    assert ts[1..] == [P("(")] + inner && ts[2..] == inner;
    ArgsBack(s.args, rest, sc);
  }

  lemma CallText(s: Src, rest: seq<Tok>)
    requires s.SCall?
    ensures Print(s, 9) + rest == [TId(s.fn)] + ([P("(")] + (PrintArgs(s.args) + ([P(")")] + rest)))
  {
    assert Print(s, 9) == [TId(s.fn), P("(")] + PrintArgs(s.args) + [P(")")];
  }

  lemma {:induction false} ArgsBack(args: SrcArgs, rest: seq<Tok>, sc: Scope)
    requires WellFormedArgs(args) && MeaningOf(args, sc).Some?
    ensures Arguments(PrintArgs(args) + ([P(")")] + rest), sc) == Ok(MeaningOf(args, sc).value, rest)
    decreases args, 1, 0
  {
    hide Parsed, Print;
    var ts := PrintArgs(args) + ([P(")")] + rest);
    if args.SNone? {
      assert ts == [P(")")] + rest && ts[1..] == rest;
    } else {
      ListBack(args, rest, sc);
      NoClose(args, rest);
    }
  }

  /** An argument does not begin with a closing parenthesis. */
  lemma NoClose(args: SrcArgs, rest: seq<Tok>)
    requires args.SArg? && WellFormedArgs(args)
    ensures !At(PrintArgs(args) + rest, ")")
  {
    hide Print;
    FirstIsNotClose(args.head, 0);
    var t := Print(args.head, 0);
    assert (PrintArgs(args) + rest)[0] == t[0];
  }

  lemma {:induction false} FirstIsNotClose(s: Src, k: nat)
    requires WellFormed(s)
    ensures |Print(s, k)| > 0 && Print(s, k)[0] != P(")")
    decreases s
  {
    if k <= Level(s) {
      match s
      case SIndex(a, _) => FirstIsNotClose(a, 8);
      case SDot(a, _) => FirstIsNotClose(a, 8);
      case SArrow(a, _) => FirstIsNotClose(a, 8);
      case SBin(op, l, _) => FirstIsNotClose(l, Strength(op));
      case SAssign(l, _) => FirstIsNotClose(l, 1);
      case _ =>
    }
  }

  lemma {:induction false} ListBack(args: SrcArgs, rest: seq<Tok>, sc: Scope)
    requires args.SArg? && WellFormedArgs(args) && MeaningOf(args, sc).Some?
    ensures ArgumentList(PrintArgs(args) + ([P(")")] + rest), sc) == Ok(MeaningOf(args, sc).value, rest)
    decreases args, 0, 0
  {
    hide Parsed, Print, Meaning;
    var ts := PrintArgs(args) + ([P(")")] + rest);
    var h := Print(args.head, 0);
    CloseStops(rest);
    if args.tail.SNone? {
      ReadBack(args.head, 0, [P(")")] + rest, sc);
      assert ([P(")")] + rest)[1..] == rest;
    } else {
      var more := PrintArgs(args.tail) + ([P(")")] + rest);
      assert ts == h + ([P(",")] + more);
      CloseStops(more);
      ReadBack(args.head, 0, [P(",")] + more, sc);
      assert ([P(",")] + more)[1..] == more;
      ListBack(args.tail, rest, sc);
    }
  }

  /**
   Parsing the tokens of any printed, well-typed expression consumes exactly those tokens and
   returns its meaning, provided the next token is not one that would continue it.
   */
  lemma ParsePrinted(s: Src, rest: seq<Tok>, sc: Scope)
    requires WellFormed(s) && Meaning(s, sc).Some? && Stops(rest, 0)
    ensures Parsed(0, Print(s, 0) + rest, sc) == Ok(Meaning(s, sc).value, rest)
  {
    hide Parsed, Stops;
    ReadBack(s, 0, rest, sc);
  }
}
