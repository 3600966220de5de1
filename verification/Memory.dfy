/**
 64-bit words and byte-addressed memory, shared by the meaning of the C subset and by
 the AArch64 machine that runs the generated code.
 */
module Memory {
  import opened Common

  const TWO63: int := 0x8000_0000_0000_0000

  type U64 = x: int | 0 <= x < TWO64
  /** Memory holds bytes; an address with no entry reads as zero on the machine. */
  type Ram = map<int, Byte>

  function Wrap(x: int): (r: U64)
    ensures 0 <= x < TWO64 ==> r == x
  {
    x % TWO64
  }

  function Negate(x: U64): U64 {
    var y: int := x;
    Wrap(-y)
  }

  function Signed(x: U64): int {
    if x < TWO63 then x else x - TWO64
  }

  /** Quotient rounded toward zero, and zero for a zero divisor. */
  function TruncDiv(a: int, b: int): int {
    if b == 0 then 0
    else if a >= 0 then if b > 0 then a / b else -(a / -b)
    else if b > 0 then -(-a / b) else -a / -b
  }

  /** Remainder with the sign of the dividend; the dividend itself for a zero divisor. */
  function TruncRem(a: int, b: int): int {
    if b == 0 then a
    else
      var d := if b > 0 then b else -b;
      if a >= 0 then a % d else -(-a % d)
  }

  /** SDIV, and the C quotient. */
  function SDiv(x: U64, y: U64): U64 {
    Wrap(TruncDiv(Signed(x), Signed(y)))
  }

  /** The C remainder. */
  function SRem(x: U64, y: U64): U64 {
    Wrap(TruncRem(Signed(x), Signed(y)))
  }

  function Get(m: Ram, a: int): Byte {
    if a in m then m[a] else 0
  }

  /** The `n` low bytes of `v`, least significant first. */
  function ByteOf(v: int, i: nat): (b: Byte)
    requires 0 <= v
  {
    if i == 0 then v % 256 else ByteOf(v / 256, i - 1)
  }

  function Pow256(n: nat): (p: nat)
    ensures p > 0
  {
    if n == 0 then 1 else 256 * Pow256(n - 1)
  }

  /** Little-endian value of the `n` bytes at `a`. */
  function LoadN(m: Ram, a: int, n: nat): (v: nat)
    ensures v < Pow256(n)
    decreases n
  {
    if n == 0 then 0 else Get(m, a) + 256 * LoadN(m, a + 1, n - 1)
  }

  function StoreN(m: Ram, a: int, v: int, n: nat): (r: Ram)
    requires 0 <= v
    ensures forall x :: x in r <==> x in m || a <= x < a + n
    ensures forall x :: !(a <= x < a + n) ==> Get(r, x) == Get(m, x)
    ensures forall x :: a <= x < a + n ==> Get(r, x) == ByteOf(v, x - a)
    decreases n
  {
    if n == 0 then m else StoreN(m[a := v % 256], a + 1, v / 256, n - 1)
  }

  lemma Pow256Eight()
    ensures Pow256(8) == TWO64
    ensures Pow256(1) == 256
  {
    assert Pow256(2) == 65536;
    assert Pow256(4) == 0x1_0000_0000;
    assert Pow256(6) == 0x1_0000_0000_0000;
  }

  function LoadWord(m: Ram, a: int): U64 {
    Pow256Eight();
    LoadN(m, a, 8)
  }

  function StoreWord(m: Ram, a: int, v: U64): Ram {
    StoreN(m, a, v, 8)
  }

  /** Bytes that agree give the same value. */
  lemma {:induction false} LoadNAgree(m: Ram, m': Ram, a: int, n: nat)
    requires forall x :: a <= x < a + n ==> Get(m, x) == Get(m', x)
    ensures LoadN(m, a, n) == LoadN(m', a, n)
    decreases n
  {
    if n > 0 {
      LoadNAgree(m, m', a + 1, n - 1);
    }
  }

  lemma {:induction false} LoadNOfBytes(m: Ram, a: int, v: int, n: nat)
    requires 0 <= v < Pow256(n)
    requires forall x :: a <= x < a + n ==> Get(m, x) == ByteOf(v, x - a)
    ensures LoadN(m, a, n) == v
    decreases n
  {
    if n > 0 {
      forall x | a + 1 <= x < a + n
        ensures Get(m, x) == ByteOf(v / 256, x - (a + 1))
      {
        assert Get(m, x) == ByteOf(v, x - a);
      }
      LoadNOfBytes(m, a + 1, v / 256, n - 1);
      assert Get(m, a) == ByteOf(v, 0);
    }
  }

  /** A word comes back as it was stored. */
  lemma LoadStoreWord(m: Ram, a: int, v: U64)
    ensures LoadWord(StoreWord(m, a, v), a) == v
  {
    Pow256Eight();
    LoadNOfBytes(StoreWord(m, a, v), a, v, 8);
  }

  lemma TruncDivRem(a: int, b: int)
    ensures a - TruncDiv(a, b) * b == TruncRem(a, b)
  {
    if b != 0 {
      var d := if b > 0 then b else -b;
      var n := if a >= 0 then a else -a;
      assert n == n / d * d + n % d;
    }
  }

  /** The two instructions SDIV and MSUB together give the C remainder. */
  lemma RemainderByMsub(x: U64, y: U64)
    ensures Wrap(x - SDiv(x, y) * y) == SRem(x, y)
  {
    var a, b := Signed(x), Signed(y);
    TruncDivRem(a, b);
    SubMulWrapped(x, y, TruncDiv(a, b));
  }

  lemma SubMulWrapped(x: U64, y: U64, q: int)
    ensures Wrap(x - Wrap(q) * y) == Wrap(Signed(x) - q * Signed(y))
  {
    SignedWraps(x);
    SignedWraps(y);
    WrapMulSub(x, Signed(x), Wrap(q), q, y, Signed(y));
  }

  lemma SignedWraps(x: U64)
    ensures x % TWO64 == Signed(x) % TWO64
  {
  }

  /** `x - p * y` modulo 2^64 depends only on the operands modulo 2^64. */
  lemma WrapMulSub(x: int, a: int, p: int, q: int, y: int, b: int)
    requires x % TWO64 == a % TWO64 && p % TWO64 == q % TWO64 && y % TWO64 == b % TWO64
    ensures Wrap(x - p * y) == Wrap(a - q * b)
  {
    var i := Multiple(x - a);
    var j := Multiple(p - q);
    var k := Multiple(y - b);
    assert x - p * y == a - q * b + TWO64 * (i - j * b - k * q - TWO64 * j * k);
    WrapShift(a - q * b, i - j * b - k * q - TWO64 * j * k);
  }

  lemma Multiple(x: int) returns (k: int)
    requires x % TWO64 == 0
    ensures x == TWO64 * k
  {
    k := x / TWO64;
  }

  lemma WrapShift(x: int, k: int)
    ensures Wrap(x + TWO64 * k) == Wrap(x)
  {
  }
}
