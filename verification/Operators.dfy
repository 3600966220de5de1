/**
 What the tree of every operator evaluates to, in numbers, addresses and bytes.
 */
module Operators {
  import opened Common
  import opened Memory
  import opened Machine
  import opened Csyntax
  import opened Csemantics
  import G = Grammar

  type Typed = G.Typed

  /** The 64-bit pattern `v` is the number `x` in two's complement. */
  ghost predicate Denotes(v: U64, x: int) {
    -0x8000_0000_0000_0000 <= x < 0x8000_0000_0000_0000 && (v == x || v == x + 0x1_0000_0000_0000_0000)
  }

  /** The two differ by a multiple of 2^64. */
  ghost predicate Same64(v: int, x: int) {
    (v - x) % 0x1_0000_0000_0000_0000 == 0
  }

  /** The quotient rounded toward zero and what is left, which has the sign of the dividend. */
  ghost predicate Divides(x: int, y: int, q: int, r: int) {
    x == q * y + r && -Magnitude(y) < r < Magnitude(y) && (r > 0 ==> x > 0) && (r < 0 ==> x < 0)
  }

  function Magnitude(x: int): int {
    if x < 0 then -x else x
  }

  /** Where an expression is evaluated. */
  datatype Place = Place(pl: Platform, p: Program, env: Env, sp: int, m: Ram, t: Trace, fuel: nat)

  ghost predicate GivesAt(c: Place, sp: int, e: Expr, v: U64) {
    Eval(c.pl, c.p, e, c.env, sp, c.m, c.t, c.fuel) == Ok(v, c.m, c.t)
  }

  /** `e` has the value `v` and no effect, with up to two temporaries on the stack. */
  ghost predicate Gives(c: Place, e: Expr, v: U64) {
    GivesAt(c, c.sp, e, v) && GivesAt(c, c.sp - 16, e, v) && GivesAt(c, c.sp - 32, e, v)
  }

  ghost predicate NamesAt(c: Place, sp: int, e: Expr, a: U64) {
    Address(c.pl, c.p, e, c.env, sp, c.m, c.t, c.fuel) == Ok(a, c.m, c.t)
  }

  /** `e` denotes the place at address `a`. */
  ghost predicate Names(c: Place, e: Expr, a: U64) {
    NamesAt(c, c.sp, e, a) && NamesAt(c, c.sp - 16, e, a) && NamesAt(c, c.sp - 32, e, a)
  }

  // ---------- arithmetic ----------

  lemma WrapSame(x: int)
    ensures Same64(Wrap(x), x)
  {
  }

  lemma SameMeans(v: U64, x: int)
    requires Same64(v, x)
    ensures v == Wrap(x)
  {
  }

  lemma SignedIs(a: U64, x: int)
    requires Denotes(a, x)
    ensures Signed(a) == x
  {
  }

  lemma SumMeans(a: U64, b: U64, x: int, y: int)
    requires Denotes(a, x) && Denotes(b, y)
    ensures Same64(Csemantics.Apply(Add, a, b), x + y) && Same64(Csemantics.Apply(Sub, a, b), x - y)
  {
  }

  lemma ProductMeans(a: U64, b: U64, x: int, y: int)
    requires Denotes(a, x) && Denotes(b, y)
    ensures Same64(Csemantics.Apply(Mul, a, b), x * y)
  {
    var i, j := if a == x then 0 else 1, if b == y then 0 else 1;
    Products(x, i, y, j);
    WrapShift(x * y, i * y + j * x + i * j * TWO64);
    WrapSame(x * y);
  }

  lemma Products(x: int, i: int, y: int, j: int)
    ensures (x + i * TWO64) * (y + j * TWO64) == x * y + TWO64 * (i * y + j * x + i * j * TWO64)
  {
  }

  lemma QuotientMeans(a: U64, b: U64, x: int, y: int) returns (q: int, r: int)
    requires Denotes(a, x) && Denotes(b, y)
    ensures y == 0 ==> Csemantics.Apply(Div, a, b) == 0 && Csemantics.Apply(Mod, a, b) == a
    ensures y != 0 ==> Divides(x, y, q, r) && Same64(Csemantics.Apply(Div, a, b), q) && Same64(Csemantics.Apply(Mod, a, b), r)
  {
    hide Denotes, Same64, Signed, Wrap;
    SignedIs(a, x);
    SignedIs(b, y);
    q, r := TruncDiv(x, y), TruncRem(x, y);
    WrapSame(q);
    WrapSame(r);
    ByZero(a, b, x, y);
    if y != 0 {
      Quotients(x, y);
    }
  }

  lemma ByZero(a: U64, b: U64, x: int, y: int)
    requires Denotes(a, x) && Denotes(b, y)
    ensures y == 0 ==> SDiv(a, b) == 0 && SRem(a, b) == a
  {
  }

  lemma Quotients(x: int, y: int)
    requires y != 0
    ensures Divides(x, y, TruncDiv(x, y), TruncRem(x, y))
  {
    hide TruncDiv;
    TruncDivRem(x, y);
    Remainder(if x < 0 then -x else x, if y < 0 then -y else y);
  }

  lemma Remainder(n: nat, d: int)
    requires d > 0
    ensures 0 <= n % d < d && (n == 0 ==> n % d == 0)
  {
  }

  lemma CompareMeans(a: U64, b: U64, x: int, y: int)
    requires Denotes(a, x) && Denotes(b, y)
    ensures Csemantics.Apply(Eq, a, b) == (if x == y then 1 else 0) && Csemantics.Apply(Ne, a, b) == if x != y then 1 else 0
    ensures Csemantics.Apply(Lt, a, b) == (if x < y then 1 else 0) && Csemantics.Apply(Le, a, b) == if x <= y then 1 else 0
  {
    SignedIs(a, x);
    SignedIs(b, y);
  }

  /** The right operand, then the left one with the right one on the stack. */
  lemma BinaryGives(c: Place, sp: int, op: BinOp, l: Expr, r: Expr, a: U64, b: U64)
    requires GivesAt(c, sp, r, b) && GivesAt(c, sp - 16, l, a) && c.p.limit <= sp - 16
    ensures GivesAt(c, sp, Binary(op, l, r), Csemantics.Apply(op, a, b))
  {
  }

  predicate Number(ty: Ty) { !ty.Ptr? && !ty.Array? }

  const ARITHMETIC: set<string> := {"*", "/", "%", "+", "-"}
  const COMPARISON: set<string> := {"<", "<=", ">", ">=", "==", "!="}

  /** The arithmetic operators on numbers, modulo 2^64; dividing by zero gives 0 and leaves the dividend. */
  lemma ArithmeticMeans(c: Place, op: string, l: Typed, r: Typed, a: U64, b: U64, x: int, y: int) returns (v: U64)
    requires op in ARITHMETIC && Number(l.ty) && Number(r.ty) && c.p.limit <= c.sp - 16
    requires Gives(c, l.e, a) && Gives(c, r.e, b) && Denotes(a, x) && Denotes(b, y)
    ensures var n := G.Combine(G.P(op), l, r); n.Some? && n.value.ty == Int && GivesAt(c, c.sp, n.value.e, v)
    ensures (op == "+" ==> Same64(v, x + y)) && (op == "-" ==> Same64(v, x - y)) && (op == "*" ==> Same64(v, x * y))
    ensures op == "/" ==> if y == 0 then v == 0 else exists q, rem :: Divides(x, y, q, rem) && Same64(v, q)
    ensures op == "%" ==> if y == 0 then v == a else exists q, rem :: Divides(x, y, q, rem) && Same64(v, rem)
  {
    hide Denotes, Same64, Divides, Eval, Csemantics.Apply, GivesAt;
    var o := if op == "*" then Mul else if op == "/" then Div else if op == "%" then Mod else if op == "+" then Add else Sub;
    v := Csemantics.Apply(o, a, b);
    BinaryGives(c, c.sp, o, l.e, r.e, a, b);
    SumMeans(a, b, x, y);
    ProductMeans(a, b, x, y);
    var q, rem := QuotientMeans(a, b, x, y);
  }

  /** The comparisons compare signed numbers, whatever the types. */
  lemma ComparisonMeans(c: Place, op: string, l: Typed, r: Typed, a: U64, b: U64, x: int, y: int)
    requires op in COMPARISON && c.p.limit <= c.sp - 16
    requires Gives(c, l.e, a) && Gives(c, r.e, b) && Denotes(a, x) && Denotes(b, y)
    ensures var n := G.Combine(G.P(op), l, r);
            var yes := if op == "<" then x < y else if op == "<=" then x <= y else if op == ">" then x > y
                       else if op == ">=" then x >= y else if op == "==" then x == y else x != y;
            n.Some? && n.value.ty == Int && GivesAt(c, c.sp, n.value.e, if yes then 1 else 0)
  {
    hide Denotes, Eval, Csemantics.Apply, GivesAt;
    CompareMeans(a, b, x, y);
    CompareMeans(b, a, y, x);
    var o := if op == "<" || op == ">" then Lt else if op == "<=" || op == ">=" then Le else if op == "==" then Eq else Ne;
    BinaryGives(c, c.sp, o, l.e, r.e, a, b);
    BinaryGives(c, c.sp, o, r.e, l.e, b, a);
  }

  /** `&&` and `||` give 0 or 1 and look at the right operand only if the left one leaves it open. */
  lemma LogicMeans(c: Place, l: Typed, r: Typed, a: U64, b: U64)
    requires GivesAt(c, c.sp, l.e, a)
    ensures var n := G.Combine(G.P("&&"), l, r);
            && n.Some? && n.value.ty == Int && (a == 0 ==> GivesAt(c, c.sp, n.value.e, 0))
            && (a != 0 && GivesAt(c, c.sp, r.e, b) ==> GivesAt(c, c.sp, n.value.e, if b != 0 then 1 else 0))
    ensures var n := G.Combine(G.P("||"), l, r);
            && n.Some? && n.value.ty == Int && (a != 0 ==> GivesAt(c, c.sp, n.value.e, 1))
            && (a == 0 && GivesAt(c, c.sp, r.e, b) ==> GivesAt(c, c.sp, n.value.e, if b != 0 then 1 else 0))
  {
  }

  // ---------- pointers ----------

  /** A pointer to, or an array of, `t`. */
  predicate PointsTo(ty: Ty, t: Ty) {
    ty == Ptr(t) || (ty.Array? && ty.elem == t)
  }

  /** A word and a pointer have 8 bytes, a char one, an array as many as its elements. */
  lemma SizesAre(t: Ty, n: nat)
    ensures Int.Size() == 8 && Char.Size() == 1 && Ptr(t).Size() == 8 && Array(t, n).Size() == n * t.Size() && Struct(n).Size() == n
  {
  }

  lemma ScaledSum(a: U64, b: U64, y: int, size: nat, k: int)
    requires Denotes(b, y) && (k == 1 || k == -1)
    ensures Same64(Wrap(a + k * Wrap(b * Wrap(size))), a + k * (y * size))
  {
    var i := if b == y then 0 else 1;
    var w, j := Wrap(size), size / TWO64;
    Scaling(y, i, w, j);
    WrapShift(y * size, i * w - y * j);
    OneWrap(a, y * size, k);
  }

  lemma Scaling(y: int, i: int, w: int, j: int)
    ensures (y + i * TWO64) * w == y * (w + j * TWO64) + TWO64 * (i * w - y * j)
  {
  }

  lemma OneWrap(a: int, x: int, k: int)
    requires k == 1 || k == -1
    ensures Same64(Wrap(a + k * Wrap(x)), a + k * x)
  {
  }

  /** A number added to a pointer, on either side, or taken from it counts elements. */
  lemma PointerMeans(c: Place, l: Typed, r: Typed, a: U64, b: U64, y: int, t: Ty) returns (up: U64, down: U64)
    requires PointsTo(l.ty, t) && Number(r.ty) && c.p.limit <= c.sp - 32
    requires Gives(c, l.e, a) && Gives(c, r.e, b) && Denotes(b, y)
    ensures var n, n', o := G.Combine(G.P("+"), l, r), G.Combine(G.P("+"), r, l), G.Combine(G.P("-"), l, r);
            && n.Some? && n' == n && o.Some? && n.value.ty == Ptr(t) == o.value.ty
            && G.Combine(G.P("-"), r, l).None?
            && GivesAt(c, c.sp, n.value.e, up) && GivesAt(c, c.sp, o.value.e, down)
    ensures Same64(up, a + y * t.Size()) && Same64(down, a - y * t.Size())
  {
    hide Eval, GivesAt, Ty.Size, Same64, Denotes;
    var s := Wrap(t.Size());
    var e := Binary(Mul, r.e, Num(s));
    var step := Wrap(b * s);
    NumGives(c, c.sp, s);
    BinaryGives(c, c.sp, Mul, r.e, Num(s), b, s);
    up, down := Wrap(a + step), Wrap(a - step);
    BinaryGives(c, c.sp, Add, l.e, e, a, step);
    BinaryGives(c, c.sp, Sub, l.e, e, a, step);
    ScaledSum(a, b, y, t.Size(), 1);
    ScaledSum(a, b, y, t.Size(), -1);
    assert G.BaseOf(l.ty) == t;
  }

  lemma NumGives(c: Place, sp: int, v: U64)
    ensures GivesAt(c, sp, Num(v), v)
  {
  }

  /** The difference of two pointers into one array counts elements; two pointers cannot be added. */
  lemma PointersMean(c: Place, l: Typed, r: Typed, a: U64, b: U64, d: int, t: Ty) returns (v: U64)
    requires PointsTo(l.ty, t) && !Number(r.ty) && c.p.limit <= c.sp - 32
    requires Gives(c, l.e, a) && Gives(c, r.e, b)
    requires 0 < t.Size() < TWO63 && Same64(a, b + d * t.Size()) && -TWO63 <= d * t.Size() < TWO63
    ensures var n := G.Combine(G.P("-"), l, r);
            n.Some? && n.value.ty == Int && GivesAt(c, c.sp, n.value.e, v) && Denotes(v, d)
    ensures G.Combine(G.P("+"), l, r).None?
  {
    hide Eval, GivesAt, Ty.Size, Same64, Denotes;
    var s := t.Size();
    var diff := Wrap(a - b);
    NumGives(c, c.sp, s);
    BinaryGives(c, c.sp - 16, Sub, l.e, r.e, a, b);
    v := Csemantics.Apply(Div, diff, s);
    BinaryGives(c, c.sp, Div, Binary(Sub, l.e, r.e), Num(s), diff, s);
    ExactQuotient(a, b, d, s);
    assert G.BaseOf(l.ty) == t;
  }

  lemma ExactQuotient(a: U64, b: U64, d: int, s: nat)
    requires 0 < s < TWO63 && Same64(a, b + d * s) && -TWO63 <= d * s < TWO63
    ensures Denotes(SDiv(Wrap(a - b), s), d)
  {
    var z := d * s;
    SignedDifference(a, b, z);
    Signs(d, s);
  }

  lemma SignedDifference(a: U64, b: U64, z: int)
    requires Same64(a, b + z) && -TWO63 <= z < TWO63
    ensures Signed(Wrap(a - b)) == z
  {
  }

  lemma Signs(d: int, s: nat)
    requires s > 0
    ensures TruncDiv(d * s, s) == d && Magnitude(d) <= Magnitude(d * s)
  {
    if d < 0 {
      TimesOver(-d, s);
      assert -(d * s) == (-d) * s;
    } else {
      TimesOver(d, s);
    }
  }

  lemma TimesOver(n: nat, s: nat)
    requires s > 0
    ensures n * s / s == n && n <= n * s
  {
    var x := n * s;
    QuotientIs(x, s, n);
    GrowsBy(n, s);
  }

  lemma AtLeast(k: int, s: nat)
    ensures k >= 1 ==> s <= k * s
    ensures k <= -1 ==> k * s + s <= 0
  {
  }

  lemma GrowsBy(n: nat, s: nat)
    requires s > 0
    ensures n <= n * s
  {
  }

  lemma QuotientIs(x: nat, s: nat, n: nat)
    requires s > 0 && x == n * s
    ensures x / s == n
  {
    var q := x / s;
    assert (n - q) * s == x - q * s;
    AtLeast(n - q, s);
  }

  // ---------- places in memory ----------

  function Cell(m: Ram, a: int): int {
    if a in m then m[a] else 0
  }

  /** The eight bytes at `a`, least significant first. */
  function EightBytes(m: Ram, a: int): int {
    Cell(m, a) + 0x100 * Cell(m, a + 1) + 0x1_0000 * Cell(m, a + 2) + 0x100_0000 * Cell(m, a + 3) + 0x1_0000_0000 * Cell(m, a + 4)
    + 0x100_0000_0000 * Cell(m, a + 5) + 0x1_0000_0000_0000 * Cell(m, a + 6) + 0x100_0000_0000_0000 * Cell(m, a + 7)
  }

  /** The word `v` is at `a`. */
  ghost predicate WordAt(m: Ram, a: int, v: U64) {
    (forall x :: a <= x < a + 8 ==> x in m) && v == EightBytes(m, a)
  }

  /** What a place of the type at `a` reads as: an array as its address, one byte as that byte, anything else as a word. */
  ghost predicate ReadsAs(ty: Ty, m: Ram, a: U64, v: U64) {
    if ty.Array? then v == a
    else if ty.Size() == 1 then a in m && v == m[a]
    else WordAt(m, a, v)
  }

  lemma ReadMeans(ty: Ty, a: U64, v: U64, m: Ram)
    requires ReadsAs(ty, m, a, v)
    ensures Read(ty, a, m) == Some(v)
  {
    if !ty.Array? && ty.Size() != 1 {
      WordLoads(m, a);
      assert Covers(m.Keys, a, 8);
    }
  }

  lemma WordLoads(m: Ram, a: int)
    ensures LoadWord(m, a) == EightBytes(m, a)
  {
    assert LoadN(m, a + 7, 1) == Cell(m, a + 7);
    assert LoadN(m, a + 5, 3) == Cell(m, a + 5) + 0x100 * Cell(m, a + 6) + 0x1_0000 * Cell(m, a + 7);
    assert LoadN(m, a + 3, 5) == Cell(m, a + 3) + 0x100 * Cell(m, a + 4) + 0x1_0000 * LoadN(m, a + 5, 3);
    assert LoadN(m, a + 1, 7) == Cell(m, a + 1) + 0x100 * Cell(m, a + 2) + 0x1_0000 * LoadN(m, a + 3, 5);
  }

  /** Storing a word puts its bytes there, least significant first, and changes no other byte. */
  lemma StoreMeans(m: Ram, a: int, v: U64)
    ensures WordAt(StoreWord(m, a, v), a, v)
    ensures forall x :: !(a <= x < a + 8) ==> (x in StoreWord(m, a, v) <==> x in m) && Get(StoreWord(m, a, v), x) == Get(m, x)
  {
    hide StoreWord, LoadWord;
    StoredBytes(m, a, v);
    LoadStoreWord(m, a, v);
    WordLoads(StoreWord(m, a, v), a);
  }

  lemma StoredBytes(m: Ram, a: int, v: U64)
    ensures var m' := StoreWord(m, a, v);
            && (forall x :: a <= x < a + 8 ==> x in m')
            && forall x :: !(a <= x < a + 8) ==> (x in m' <==> x in m) && Get(m', x) == Get(m, x)
  {
  }

  /** The lvalues: where each is, and that its value is what is read there. */
  lemma PlacesMean(c: Place, v: Var, obj: Expr, ptr: Expr, a: U64, off: nat, ty: Ty)
    ensures v.Global? ==> Names(c, VarRef(v, ty), v.addr)
    ensures v.Local? && v.slot < |c.env.offs| && 0 <= c.env.fp - c.env.offs[v.slot] < TWO64 ==>
              Names(c, VarRef(v, ty), c.env.fp - c.env.offs[v.slot])
    ensures Gives(c, ptr, a) ==> Names(c, Deref(ptr, ty), a)
    ensures Names(c, obj, a) ==> Names(c, Member(obj, off, ty), Wrap(a + off))
    ensures Names(c, obj, a) ==> Gives(c, AddrOf(obj), a)
  {
  }

  /** A variable, a dereference or a member of type `ty`. */
  predicate Lvalue(e: Expr, ty: Ty) {
    (e.VarRef? && e.ty == ty) || (e.Deref? && e.ty == ty) || (e.Member? && e.ty == ty)
  }

  lemma LvalueGives(c: Place, e: Expr, ty: Ty, a: U64, v: U64)
    requires Lvalue(e, ty) && Names(c, e, a) && ReadsAs(ty, c.m, a, v)
    ensures Gives(c, e, v)
  {
    hide ReadsAs, Read;
    ReadMeans(ty, a, v, c.m);
    FetchGives(c, c.sp, e, ty, a, v);
    FetchGives(c, c.sp - 16, e, ty, a, v);
    FetchGives(c, c.sp - 32, e, ty, a, v);
  }

  lemma FetchGives(c: Place, sp: int, e: Expr, ty: Ty, a: U64, v: U64)
    requires Lvalue(e, ty) && NamesAt(c, sp, e, a) && Read(ty, a, c.m) == Some(v)
    ensures GivesAt(c, sp, e, v)
  {
    hide Read;
  }

  /** An assignment stores into a char the low byte and into anything else the word, and has the whole value. */
  lemma AssignMeans(c: Place, dst: Expr, ty: Ty, src: Expr, a: U64, v: U64) returns (m': Ram)
    requires Lvalue(dst, ty) && Names(c, dst, a) && Gives(c, src, v) && c.p.limit <= c.sp - 16
    requires Covers(c.env.alloc, a, 8)
    ensures Eval(c.pl, c.p, Assign(dst, src), c.env, c.sp, c.m, c.t, c.fuel) == Ok(v, m', c.t)
    ensures if ty.Size() == 1 then a in m' && m'[a] == v % 256 else WordAt(m', a, v)
    ensures forall x :: !(a <= x < a + (if ty.Size() == 1 then 1 else 8)) ==> (x in m' <==> x in c.m) && Get(m', x) == Get(c.m, x)
  {
    hide WordAt, StoreN, StoreWord;
    m' := if ty.Size() == 1 then StoreN(c.m, a, v, 1) else StoreWord(c.m, a, v);
    StoreMeans(c.m, a, v);
    ByteStored(c.m, a, v);
    assert TypeOf(dst) == ty;
    assert Write(ty, a, v, c.m, c.env.alloc) == Some(m');
  }

  lemma ByteStored(m: Ram, a: int, v: U64)
    ensures a in StoreN(m, a, v, 1) && StoreN(m, a, v, 1)[a] == v % 256
    ensures forall x :: x != a ==> (x in StoreN(m, a, v, 1) <==> x in m) && Get(StoreN(m, a, v, 1), x) == Get(m, x)
  {
  }

  // ---------- prefix and postfix operators ----------

  /** `-`, `!`, `+` and `sizeof` on a number. */
  lemma PrefixMeans(c: Place, x: Typed, a: U64, n: int) returns (v: U64)
    requires GivesAt(c, c.sp, x.e, a) && Denotes(a, n)
    ensures var e := G.Apply(G.P("-"), x); e.Some? && e.value.ty == Int && GivesAt(c, c.sp, e.value.e, v) && Same64(v, -n)
    ensures var e := G.Apply(G.P("!"), x); e.Some? && e.value.ty == Int && GivesAt(c, c.sp, e.value.e, if n == 0 then 1 else 0)
    ensures G.Apply(G.P("+"), x) == Some(x)
    ensures var e := G.Apply(G.P("sizeof"), x); e.Some? && e.value.ty == Int && e.value.e == Num(Wrap(x.ty.Size()))
  {
    v := Negate(a);
    WrapSame(-n);
  }

  /** `*p` is the place `p` points to; `&x` is the address of `x`, of pointer type. */
  lemma DerefMeans(c: Place, p: Typed, t: Ty, x: Typed, a: U64)
    requires PointsTo(p.ty, t)
    ensures var e := G.Apply(G.P("*"), p);
            e.Some? && e.value.ty == t && Lvalue(e.value.e, t) && (Gives(c, p.e, a) ==> Names(c, e.value.e, a))
    ensures var e := G.Apply(G.P("&"), x);
            e.Some? && e.value.ty == Ptr(x.ty) && (Names(c, x.e, a) ==> Gives(c, e.value.e, a))
    ensures Number(x.ty) ==> G.Apply(G.P("*"), x).None?
  {
    PlacesMean(c, Global(0), x.e, p.e, a, 0, t);
  }

  /** `a[i]` is element `i` of what `a` points to. */
  lemma IndexMeans(c: Place, l: Typed, r: Typed, a: U64, b: U64, y: int, t: Ty) returns (at: U64)
    requires PointsTo(l.ty, t) && Number(r.ty) && c.p.limit <= c.sp - 64
    requires Gives(c, l.e, a) && Gives(c, r.e, b) && Gives(c.(sp := c.sp - 32), l.e, a) && Gives(c.(sp := c.sp - 32), r.e, b) && Denotes(b, y)
    ensures var n := G.MakeIndex(l, r);
            n.Some? && n.value.ty == t && Lvalue(n.value.e, t) && Names(c, n.value.e, at)
    ensures Same64(at, a + y * t.Size())
  {
    hide Denotes, Same64, Gives, GivesAt, Ty.Size, PointsTo;
    var s := G.MakeAdd(l, r);
    var down;
    at, down := PointerMeans(c, l, r, a, b, y, t);
    SumAt(c, l, r, a, b, y, t, 16, at);
    SumAt(c, l, r, a, b, y, t, 32, at);
    assert Gives(c, s.value.e, at) by { ThreeGive(c, s.value.e, at); }
    PlacesMean(c, Global(0), l.e, s.value.e, at, 0, t);
  }

  lemma ThreeGive(c: Place, e: Expr, v: U64)
    requires GivesAt(c, c.sp, e, v) && GivesAt(c, c.sp - 16, e, v) && GivesAt(c, c.sp - 32, e, v)
    ensures Gives(c, e, v)
  {
  }

  /** The same sum with `d` bytes of temporaries on the stack. */
  lemma SumAt(c: Place, l: Typed, r: Typed, a: U64, b: U64, y: int, t: Ty, d: int, at: U64)
    requires PointsTo(l.ty, t) && Number(r.ty) && c.p.limit <= c.sp - 64 && (d == 16 || d == 32)
    requires Gives(c, l.e, a) && Gives(c, r.e, b) && Gives(c.(sp := c.sp - 32), l.e, a) && Gives(c.(sp := c.sp - 32), r.e, b) && Denotes(b, y)
    requires Same64(at, a + y * t.Size())
    ensures G.MakeAdd(l, r).Some? && GivesAt(c, c.sp - d, G.MakeAdd(l, r).value.e, at)
  {
    hide Denotes, Same64, GivesAt, Ty.Size, Eval;
    var c' := c.(sp := c.sp - d);
    FurtherDown(c, l.e, a, d);
    FurtherDown(c, r.e, b, d);
    var up, down := PointerMeans(c', l, r, a, b, y, t);
    SameValue(up, at, a + y * t.Size());
    ElsewhereGives(c, c', c.sp - d, G.MakeAdd(l, r).value.e, at);
  }

  lemma SameValue(u: U64, v: U64, x: int)
    requires Same64(u, x) && Same64(v, x)
    ensures u == v
  {
  }

  lemma ElsewhereGives(c: Place, c': Place, sp: int, e: Expr, v: U64)
    requires c' == c.(sp := c'.sp)
    ensures GivesAt(c', sp, e, v) <==> GivesAt(c, sp, e, v)
  {
  }

  lemma FurtherDown(c: Place, e: Expr, v: U64, d: int)
    requires Gives(c, e, v) && Gives(c.(sp := c.sp - 32), e, v) && (d == 16 || d == 32)
    ensures Gives(c.(sp := c.sp - d), e, v)
  {
  }

  /** `s.m` and `p->m` are the member at its offset. */
  lemma MemberMeans(c: Place, s: Typed, p: Typed, name: string, sc: G.Scope, a: U64, t: Ty)
    requires (t, name) in sc.members && t.Struct?
    ensures var (off, ty) := sc.members[(t, name)];
            && (s.ty == t ==> var e := G.MakeDot(s, name, sc);
                  e.Some? && e.value.ty == ty && Lvalue(e.value.e, ty) && (Names(c, s.e, a) ==> Names(c, e.value.e, Wrap(a + off))))
            && (p.ty == Ptr(t) ==> var e := G.MakeArrow(p, name, sc);
                  e.Some? && e.value.ty == ty && Lvalue(e.value.e, ty) && (Gives(c, p.e, a) ==> Names(c, e.value.e, Wrap(a + off))))
  {
    var (off, ty) := sc.members[(t, name)];
    PlacesMean(c, Global(0), s.e, p.e, a, off, ty);
    PlacesMean(c, Global(0), Deref(p.e, t), p.e, a, off, ty);
    PlacesMean(c, Global(0), s.e, p.e, a, off, t);
  }
}
