/**
 The parser as it runs: one cursor into the token list, moved by mutually recursive procedures.
 An error stops the parse.
 */
module ExprParser {
  import opened Common
  import opened Csyntax
  import opened Grammar

  class Cursor {
    const toks: seq<Tok>
    const sc: Scope
    var pos: nat

    constructor (toks: seq<Tok>, sc: Scope)
      ensures this.toks == toks && this.sc == sc && pos == 0
    {
      this.toks, this.sc := toks, sc;
      pos := 0;
    }

    ghost predicate Valid()
      reads this
    {
      pos <= |toks|
    }

    ghost function Rest(): seq<Tok>
      reads this
      requires Valid()
    {
      toks[pos..]
    }

    /** The outcome `r` and the cursor are what the grammar says. */
    ghost predicate Gives<T>(p: Parse<T>, r: Option<T>)
      reads this
    {
      && Valid()
      && (p.Fail? ==> r.None?)
      && (p.Ok? ==> r == Some(p.node) && Rest() == p.rest)
    }

    method Peek(s: string) returns (yes: bool)
      requires Valid()
      ensures yes == At(Rest(), s)
    {
      yes := pos < |toks| && toks[pos] == P(s);
    }

    method Consume(s: string) returns (yes: bool)
      requires Valid()
      modifies this
      ensures Valid() && yes == old(At(Rest(), s))
      ensures if yes then Rest() == old(Rest())[1..] && pos == old(pos) + 1 else pos == old(pos)
    {
      yes := Peek(s);
      if yes {
        pos := pos + 1;
      }
    }

    /** Number, string, name, call or parenthesised expression. */
    method Primary() returns (r: Option<Typed>)
      requires Valid()
      modifies this
      ensures Gives(Parsed(9, old(Rest()), sc), r) && pos >= old(pos)
      decreases |toks| - pos, 11
    {
      ghost var ts := Rest();
      if pos == |toks| {
        return None;
      }
      assert ts[0] == toks[pos];
      match toks[pos] {
        case TNum(v) =>
          pos := pos + 1;
          return Some(Typed(Num(v), Int));
        case TStr(a) =>
          pos := pos + 1;
          return Some(Typed(StrLit(a), Ptr(Char)));
        case TId(name) =>
          pos := pos + 1;
          assert Rest() == ts[1..];
          var call := Consume("(");
          if call {
            assert Rest() == ts[2..];
            var a := Arguments();
            return if a.None? then None else Some(Typed(Call(name, a.value), Int));
          }
          return MakeVar(name, sc);
        case P(s) =>
          if s != "(" {
            return None;
          }
          pos := pos + 1;
          assert Rest() == ts[1..];
          r := AssignExpr();
          if r.None? {
            return;
          }
          var close := Consume(")");
          if !close {
            return None;
          }
      }
    }

    method Arguments() returns (r: Option<Args>)
      requires Valid()
      modifies this
      ensures Gives(Grammar.Arguments(old(Rest()), sc), r) && pos >= old(pos)
      decreases |toks| - pos, 51
    {
      var none := Consume(")");
      if none {
        return Some(NoArgs);
      }
      r := ArgumentList();
    }

    method ArgumentList() returns (r: Option<Args>)
      requires Valid()
      modifies this
      ensures Gives(Grammar.ArgumentList(old(Rest()), sc), r) && pos >= old(pos)
      decreases |toks| - pos, 50
    {
      var x := AssignExpr();
      if x.None? {
        return None;
      }
      var comma := Consume(",");
      if comma {
        var more := ArgumentList();
        return if more.None? then None else Some(Arg(x.value.e, more.value));
      }
      var close := Consume(")");
      return if close then Some(Arg(x.value.e, NoArgs)) else None;
    }

    /** A primary and the suffixes after it. */
    method Postfix() returns (r: Option<Typed>)
      requires Valid()
      modifies this
      ensures Gives(Parsed(8, old(Rest()), sc), r) && pos >= old(pos)
      decreases |toks| - pos, 12
    {
      r := Primary();
      if r.None? {
        return;
      }
      ghost var goal := Parsed(8, old(Rest()), sc);
      while true
        invariant Valid() && pos > old(pos) && r.Some? && Suffixes(r.value, Rest(), sc) == goal
        decreases |toks| - pos
      {
        ghost var ts := Rest();
        var index := Consume("[");
        if index {
          var i := AssignExpr();
          if i.None? {
            return None;
          }
          var close := Consume("]");
          if !close {
            return None;
          }
          r := MakeIndex(r.value, i.value);
          if r.None? {
            return;
          }
        } else {
          var dot := Peek(".");
          var arrow := Peek("->");
          if !dot && !arrow {
            return;
          }
          if pos + 1 >= |toks| || !toks[pos + 1].TId? {
            return None;
          }
          var name := toks[pos + 1].name;
          assert ts[1] == toks[pos + 1];
          pos := pos + 2;
          assert Rest() == ts[2..];
          r := if dot then MakeDot(r.value, name, sc) else MakeArrow(r.value, name, sc);
          if r.None? {
            return;
          }
        }
      }
    }

    method Unary() returns (r: Option<Typed>)
      requires Valid()
      modifies this
      ensures Gives(Parsed(7, old(Rest()), sc), r) && pos >= old(pos)
      decreases |toks| - pos, 13
    {
      ghost var ts := Rest();
      if pos < |toks| && Prefix(toks[pos]) {
        var op := toks[pos];
        assert ts[0] == op;
        pos := pos + 1;
        assert Rest() == ts[1..];
        r := Unary();
        if r.Some? {
          r := Apply(op, r.value);
        }
      } else {
        assert pos < |toks| ==> ts[0] == toks[pos];
        r := Postfix();
      }
    }

    /** The six left-associative levels, tightest last. */
    method Binary(k: nat) returns (r: Option<Typed>)
      requires Valid() && 1 <= k <= 6
      modifies this
      ensures Gives(Parsed(k, old(Rest()), sc), r) && pos >= old(pos)
      decreases |toks| - pos, 40 - 2 * k
    {
      r := Tighter(k);
      if r.None? {
        return;
      }
      ghost var goal := Parsed(k, old(Rest()), sc);
      while pos < |toks| && Strength(toks[pos]) == k
        invariant Valid() && pos > old(pos) && r.Some? && More(k, r.value, Rest(), sc) == goal
        decreases |toks| - pos
      {
        ghost var ts := Rest();
        var op := toks[pos];
        assert ts[0] == op;
        pos := pos + 1;
        assert Rest() == ts[1..];
        var x := Tighter(k);
        if x.None? {
          return None;
        }
        r := Combine(op, r.value, x.value);
        if r.None? {
          return;
        }
      }
      assert pos < |toks| ==> Rest()[0] == toks[pos];
    }

    method Tighter(k: nat) returns (r: Option<Typed>)
      requires Valid() && 1 <= k <= 6
      modifies this
      ensures Gives(Parsed(k + 1, old(Rest()), sc), r) && pos >= old(pos)
      decreases |toks| - pos, 39 - 2 * k
    {
      if k == 6 {
        r := Unary();
      } else {
        r := Binary(k + 1);
      }
    }

    /** Assignment groups to the right. */
    method AssignExpr() returns (r: Option<Typed>)
      requires Valid()
      modifies this
      ensures Gives(Parsed(0, old(Rest()), sc), r) && pos >= old(pos)
      decreases |toks| - pos, 40
    {
      r := Binary(1);
      if r.None? {
        return;
      }
      var eq := Consume("=");
      if eq {
        var x := AssignExpr();
        if x.None? {
          return None;
        }
        r := Some(Typed(Assign(r.value.e, x.value.e), r.value.ty));
      }
    }
  }
}
