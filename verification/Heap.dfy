/**
 The first-fit heap as the kernel keeps it: every free block begins with a header of two 8-byte
 words, the address of the next free block and the block's own length. The header lies in the
 memory it describes, so where a block is too short for one the words after it are written.
 */
module Heap {
  import opened Common
  import opened FreeList

  /** The word at `a`; memory starts out zero. */
  function W(mem: map<int, int>, a: int): int {
    if a in mem then mem[a] else 0
  }

  /** 64-bit addition. */
  function Add64(a: int, b: int): (r: int)
    ensures 0 <= r < TWO64
    ensures 0 <= a + b < TWO64 ==> r == a + b
    ensures TWO64 <= a + b < 2 * TWO64 ==> r == a + b - TWO64
    ensures -TWO64 <= a + b < 0 ==> r == a + b + TWO64
  {
    (a + b) % TWO64
  }

  /** Address of block `i`, 0 (the null pointer) past the end. */
  function AddrOf(f: seq<Blk>, i: nat): int {
    if i < |f| then f[i].start else 0
  }

  /** Address of the block before block `k`; 0 stands for the list head. */
  function PrevOf(f: seq<Blk>, k: nat): int
    requires k <= |f|
  {
    if k == 0 then 0 else f[k - 1].start
  }

  /** The headers in `mem` spell out the list `f`. */
  ghost predicate Chained(mem: map<int, int>, first: int, f: seq<Blk>) {
    && first == AddrOf(f, 0)
    && forall i :: 0 <= i < |f| ==> W(mem, f[i].start) == AddrOf(f, i + 1) && W(mem, f[i].start + 8) == f[i].len
  }

  predicate Eights(f: seq<Blk>) {
    forall i :: 0 <= i < |f| ==> f[i].start % 8 == 0 && f[i].len % 8 == 0
  }

  /** Wherever the blocks start, their lengths are multiples of 16. */
  predicate Sixteens(f: seq<Blk>) {
    forall i :: 0 <= i < |f| ==> f[i].len % 16 == 0
  }

  /** A list in shape, made of whole words. */
  predicate Wordly(f: seq<Blk>, lo: int, hi: int) {
    0 < lo && hi < TWO64 && Sorted(f, lo, hi) && Eights(f)
  }

  // ---------- what the two operations write, in the order they write it ----------

  /** Point block `prev` at `to`; the list head is not in memory. */
  function Link(mem: map<int, int>, prev: int, to: int): map<int, int> {
    if prev == 0 then mem else mem[prev := to]
  }

  /** The header of what is left of block `curr` once `n` bytes are taken off its front. */
  function Leftover(mem: map<int, int>, curr: int, n: int): map<int, int> {
    var m := mem[curr + n := W(mem, curr)];
    m[curr + n + 8 := Add64(W(m, curr + 8), -n)]
  }

  function Taken(mem: map<int, int>, prev: int, curr: int, n: int): map<int, int> {
    if W(mem, curr + 8) == n then Link(mem, prev, W(mem, curr))
    else Link(Leftover(mem, curr, n), prev, curr + n)
  }

  /** A block of `n` bytes at `start` joins `prev`, or gets a header of its own. */
  function Placed(mem: map<int, int>, prev: int, curr: int, start: int, n: int): map<int, int> {
    if prev != 0 && Add64(prev, W(mem, prev + 8)) == start then mem[prev + 8 := Add64(W(mem, prev + 8), n)]
    else Link(mem[start := curr][start + 8 := n], prev, start)
  }

  /** Block `nb` takes in block `curr` if it reaches up to it. */
  function Absorbed(mem: map<int, int>, nb: int, curr: int): map<int, int> {
    if curr != 0 && Add64(nb, W(mem, nb + 8)) == curr then
      var m := mem[nb + 8 := Add64(W(mem, nb + 8), W(mem, curr + 8))];
      m[nb := W(m, curr)]
    else mem
  }

  function Freed(mem: map<int, int>, prev: int, curr: int, start: int, n: int): map<int, int> {
    var nb := if prev != 0 && Add64(prev, W(mem, prev + 8)) == start then prev else start;
    Absorbed(Placed(mem, prev, curr, start, n), nb, curr)
  }

  /** The checks, with the end computed in 64 bits. */
  predicate Admits(f: seq<Blk>, lo: int, hi: int, start: int, n: int) {
    var k, end := InsertAt(f, start, 0), Add64(start, n);
    && lo <= start && end <= hi
    && (k > 0 ==> f[k - 1].End() <= start)
    && (k < |f| ==> end <= f[k].start)
  }

  /** `n` bytes would come off the front of a longer block. */
  predicate Splits(f: seq<Blk>, n: int) {
    var k := FirstFit(f, n, 0);
    k < |f| && f[k].len > n
  }

  /** A one-word block would lie right before a free block and apart from the one before. */
  predicate Squeezed(f: seq<Blk>, b: Blk) {
    b.len == 8 && TouchesRight(f, b) && !TouchesLeft(f, b)
  }

  /**
   What giving back block `b` of whole words makes of the list `f`: the list `g`, spelt out by the
   headers unless the block was squeezed in. Memory that is not free afterwards is left alone but
   for the word after an 8-byte block; in a layout of multiples of 16 without exception.
   */
  ghost predicate GivenBack(mem: map<int, int>, f: seq<Blk>, lo: int, hi: int, b: Blk, m: map<int, int>, first: int, g: seq<Blk>, bytes: int) {
    && Wordly(g, lo, hi) && bytes == Total(g)
    && (Chained(m, first, g) <==> !Squeezed(f, b))
    && (forall a :: !Covered(g, a) && !(Merged(f, b).len == 8 && a == b.start + 8) ==> W(m, a) == W(mem, a))
    && (Merged(f, b).len == 8 ==> W(m, b.start + 8) == 8)
    && (Sixteens(f) && b.len % 16 == 0 ==>
          Chained(m, first, g) && Sixteens(g) && forall a :: !Covered(g, a) ==> W(m, a) == W(mem, a))
  }

  class FirstFitHeap {
    var mem: map<int, int>
    /** The list head: first free block, and the number of free bytes. */
    var first: int
    var bytes: int
    const lo: int
    const hi: int

    ghost var f: seq<Blk>

    ghost predicate Valid()
      reads this
    {
      Wordly(f, lo, hi) && Chained(mem, first, f) && bytes == Total(f)
    }

    constructor (start: nat, end: nat)
      requires 0 < start <= TWO64 - 8 && end < TWO64 && Round(start) < end / 8 * 8
      ensures Valid() && lo == Round(start) && hi == end / 8 * 8
      ensures f == [Blk(lo, hi - lo)] && bytes == hi - lo
    {
      var a, z := Round(start), end / 8 * 8;
      lo, hi := a, z;
      mem := map[a := 0, a + 8 := z - a];
      first, bytes := a, z - a;
      f := [Blk(a, z - a)];
      new;
      TotalOne(f[0]);
    }

    /** Point `prev`, or the list head for 0, at `to`. */
    method Relink(prev: int, to: int)
      modifies this`mem, this`first
      ensures mem == Link(old(mem), prev, to) && first == if prev == 0 then to else old(first)
    {
      if prev == 0 {
        first := to;
      } else {
        mem := mem[prev := to];
      }
    }

    /**
     First fit; 0 if nothing is asked for or nothing fits. The headers still spell out the list
     unless one word was split off a longer block, and memory that was not free is left alone but
     for the word after an 8-byte remainder.
     */
    method Getmem(nbytes: nat) returns (r: int)
      requires Valid() && nbytes < TWO64
      modifies this
      ensures bytes == Total(f)
      ensures nbytes == 0 || FirstFit(old(f), Round(nbytes), 0) == |old(f)| ==>
        r == 0 && f == old(f) && mem == old(mem) && Valid()
      ensures nbytes > 0 && FirstFit(old(f), Round(nbytes), 0) < |old(f)| ==>
        var n := Round(nbytes);
        var k := FirstFit(old(f), n, 0);
        var c := old(f)[k];
        && r == c.start && f == Carve(old(f), k, n) && mem == Taken(old(mem), PrevOf(old(f), k), r, n)
        && (Valid() <==> !(n == 8 && Splits(old(f), n)))
        && (forall a :: !Covered(old(f), a) && !(c.len == n + 8 && a == c.End()) ==> W(mem, a) == W(old(mem), a))
        && (c.len == n + 8 && n != 8 ==> W(mem, c.End()) == 8)
      ensures Sixteens(old(f)) && Round(nbytes) % 16 == 0 ==>
        Valid() && Sixteens(f) && forall a :: !Covered(old(f), a) ==> W(mem, a) == W(old(mem), a)
    {
      hide Carve, Chained, Total, Round, Taken, Wordly, Covered, W, Sixteens;
      if nbytes == 0 {
        return 0;
      }
      var n: int := Round(nbytes);
      var prev, curr, k := Find(n);
      if curr == 0 {
        return 0;
      }
      NextIs(mem, first, f, k);
      TakenIs(mem, first, f, k, n, lo, hi);
      if Sixteens(f) && n % 16 == 0 {
        TakeSixteens(f, k, n);
      }
      Take(prev, curr, n);
      bytes := bytes - n;
      f := Carve(f, k, n);
      return curr;
    }

    /** Walk to the first block of at least `n` bytes. */
    method Find(n: int) returns (prev: int, curr: int, ghost k: nat)
      requires Valid()
      ensures k == FirstFit(f, n, 0) && curr == AddrOf(f, k) && prev == PrevOf(f, k) && (curr == 0 <==> k == |f|)
      ensures prev == 0 <==> k == 0
    {
      hide Chained, Wordly, Total, W;
      prev, curr, k := 0, first, 0;
      NextIs(mem, first, f, 0);
      BlocksAre(f, lo, hi);
      while curr != 0 && W(mem, curr + 8) < n
        invariant 0 <= k <= |f| && curr == AddrOf(f, k) && prev == PrevOf(f, k)
        invariant FirstFit(f, n, k) == FirstFit(f, n, 0)
        decreases |f| - k
      {
        NextIs(mem, first, f, k);
        prev, curr := curr, W(mem, curr);
        k := k + 1;
      }
      NextIs(mem, first, f, k);
    }

    /** Unlink block `curr`, or leave what is over in its place. */
    method Take(prev: int, curr: int, n: int)
      modifies this`mem, this`first
      ensures mem == Taken(old(mem), prev, curr, n)
      ensures first == if prev != 0 then old(first) else if W(old(mem), curr + 8) == n then W(old(mem), curr) else curr + n
    {
      hide Add64;
      if W(mem, curr + 8) == n {
        Relink(prev, W(mem, curr));
      } else {
        mem := mem[curr + n := W(mem, curr)];
        mem := mem[curr + n + 8 := Add64(W(mem, curr + 8), -n)];
        Relink(prev, curr + n);
      }
    }

    /**
     Give a block back: refused (-1) unless it passes the checks. For a block of whole words that
     does not wrap around the address space the list is then that with the block inserted, and the
     headers spell it out unless one word was squeezed in before a free block.
     */
    method Freemem(start: nat, nbytes: nat) returns (r: int)
      requires Valid() && start < TWO64 && nbytes < TWO64
      modifies this
      ensures r == 0 || r == -1
      ensures r == 0 <==> start != 0 && nbytes != 0 && Admits(old(f), lo, hi, start, Round(nbytes))
      ensures r == -1 ==> f == old(f) && mem == old(mem) && Valid()
      ensures r == 0 ==>
        var n := Round(nbytes);
        var k := InsertAt(old(f), start, 0);
        && mem == Freed(old(mem), PrevOf(old(f), k), AddrOf(old(f), k), start, n)
        && first == (if k == 0 then start else old(first)) && bytes == Add64(old(bytes), n)
        && f == Insert(old(f), Blk(start, n))
      ensures r == 0 && start % 8 == 0 && start + RoundUp(nbytes) < TWO64 ==>
        GivenBack(old(mem), old(f), lo, hi, Blk(start, Round(nbytes)), mem, first, f, bytes)
    {
      hide Chained, Total, Round, Insert, Merged, Freed, Placed, Absorbed, Wordly, Covered, GivenBack, RoundUp, W, InsertAt, Add64;
      if start == 0 || nbytes == 0 {
        return -1;
      }
      var n := Round(nbytes);
      var end := Add64(start, n);
      if start < lo || end > hi {
        return -1;
      }
      var prev, curr, k := Seek(start);
      var prevEnd := if prev == 0 then 0 else Add64(prev, W(mem, prev + 8));
      if prevEnd > start || (curr != 0 && end > curr) {
        return -1;
      }
      if start % 8 == 0 && start + RoundUp(nbytes) < TWO64 {
        FreedIs(mem, first, f, lo, hi, start, nbytes, bytes);
      }
      Put(prev, curr, start, n);
      bytes := Add64(bytes, n);
      f := Insert(f, Blk(start, n));
      return 0;
    }

    /** Walk to where a block at `start` goes. */
    method Seek(start: int) returns (prev: int, curr: int, ghost k: nat)
      requires Valid()
      ensures k == InsertAt(f, start, 0) && curr == AddrOf(f, k) && prev == PrevOf(f, k)
      ensures (curr == 0 <==> k == |f|) && (prev == 0 <==> k == 0)
      ensures k > 0 ==> Add64(prev, W(mem, prev + 8)) == f[k - 1].End()
    {
      hide Chained, Wordly, Total, W;
      prev, curr, k := 0, first, 0;
      NextIs(mem, first, f, 0);
      BlocksAre(f, lo, hi);
      while curr != 0 && curr < start
        invariant 0 <= k <= |f| && curr == AddrOf(f, k) && prev == PrevOf(f, k)
        invariant InsertAt(f, start, k) == InsertAt(f, start, 0)
        decreases |f| - k
      {
        NextIs(mem, first, f, k);
        prev, curr := curr, W(mem, curr);
        k := k + 1;
      }
      NextIs(mem, first, f, k);
    }

    /** Write the headers for a block between `prev` and `curr`, merging with those it touches. */
    method Put(prev: int, curr: int, start: int, n: int)
      modifies this`mem, this`first
      ensures mem == Freed(old(mem), prev, curr, start, n)
      ensures first == if prev == 0 then start else old(first)
    {
      hide Add64;
      var newblk := start;
      if prev != 0 && Add64(prev, W(mem, prev + 8)) == start {
        mem := mem[prev + 8 := Add64(W(mem, prev + 8), n)];
        newblk := prev;
      } else {
        mem := mem[start := curr];
        mem := mem[start + 8 := n];
        Relink(prev, start);
      }
      if curr != 0 && Add64(newblk, W(mem, newblk + 8)) == curr {
        mem := mem[newblk + 8 := Add64(W(mem, newblk + 8), W(mem, curr + 8))];
        mem := mem[newblk := W(mem, curr)];
      }
    }

    /** Length of the largest free block. */
    method LargestBlock() returns (max: int)
      requires Valid()
      ensures forall i :: 0 <= i < |f| ==> f[i].len <= max
      ensures if f == [] then max == 0 else exists i :: 0 <= i < |f| && f[i].len == max
    {
      hide Chained, Wordly, Total;
      NextIs(mem, first, f, 0);
      BlocksAre(f, lo, hi);
      max := 0;
      var curr := first;
      ghost var k, best := 0, 0;
      while curr != 0
        invariant 0 <= k <= |f| && curr == AddrOf(f, k) && max >= 0
        invariant forall i :: 0 <= i < k ==> f[i].len <= max
        invariant k > 0 ==> 0 <= best < k && f[best].len == max
        invariant k == 0 ==> max == 0
        decreases |f| - k
      {
        NextIs(mem, first, f, k);
        if W(mem, curr + 8) > max {
          max := W(mem, curr + 8);
          best := k;
        }
        curr := W(mem, curr);
        k := k + 1;
      }
    }
  }

  // ---------- the chain as a sequence ----------

  lemma NextIs(mem: map<int, int>, first: int, f: seq<Blk>, k: nat)
    requires Chained(mem, first, f) && k <= |f|
    ensures first == AddrOf(f, 0)
    ensures k < |f| ==> W(mem, f[k].start) == AddrOf(f, k + 1) && W(mem, f[k].start + 8) == f[k].len
    ensures k > 0 ==> W(mem, f[k - 1].start + 8) == f[k - 1].len
  {
  }

  /** Blocks have non-null, increasing addresses, with a word between any two. */
  lemma BlocksAre(f: seq<Blk>, lo: int, hi: int)
    requires Wordly(f, lo, hi)
    ensures forall i :: 0 <= i < |f| ==> 0 < lo <= f[i].start && 8 <= f[i].len && f[i].start + f[i].len <= hi < TWO64
    ensures forall i, j :: 0 <= i < j < |f| ==> f[i].start + f[i].len + 8 <= f[j].start
  {
  }

  /** Unlinking `f[k]` by pointing what precedes it at what follows. */
  lemma CutChained(mem: map<int, int>, first: int, f: seq<Blk>, k: nat, lo: int, hi: int)
    requires Chained(mem, first, f) && k < |f| && Wordly(f, lo, hi)
    ensures Chained(Link(mem, PrevOf(f, k), AddrOf(f, k + 1)), if k == 0 then AddrOf(f, 1) else first, f[..k] + f[k + 1..])
  {
    hide AddrOf, Wordly;
    BlocksAre(f, lo, hi);
    var g, m := f[..k] + f[k + 1..], Link(mem, PrevOf(f, k), AddrOf(f, k + 1));
    AddrCut(f, k, 0);
    forall y | 0 <= y < |g| ensures W(m, g[y].start) == AddrOf(g, y + 1) && W(m, g[y].start + 8) == g[y].len {
      AddrCut(f, k, y + 1);
      var x := if y < k then y else y + 1;
      assert g[y] == f[x];
      assert k > 0 && x != k - 1 ==> f[x].start != f[k - 1].start && f[x].start + 8 != f[k - 1].start;
      assert W(mem, f[x].start) == AddrOf(f, x + 1) && W(mem, f[x].start + 8) == f[x].len;
    }
  }

  lemma AddrCut(f: seq<Blk>, k: nat, y: nat)
    requires k < |f|
    ensures AddrOf(f[..k] + f[k + 1..], y) == AddrOf(f, if y < k then y else y + 1)
  {
  }

  /** A new block `x` in place of `f[i..j]`. */
  lemma SpliceChained(mem: map<int, int>, first: int, f: seq<Blk>, i: nat, j: nat, x: Blk, m: map<int, int>, first': int)
    requires Chained(mem, first, f) && i <= j <= |f|
    requires W(m, x.start) == AddrOf(f, j) && W(m, x.start + 8) == x.len
    requires i > 0 ==> W(m, f[i - 1].start) == x.start && W(m, f[i - 1].start + 8) == f[i - 1].len
    requires forall y :: 0 <= y < |f| && (y + 1 < i || y >= j) ==> W(m, f[y].start) == W(mem, f[y].start) && W(m, f[y].start + 8) == W(mem, f[y].start + 8)
    requires first' == if i == 0 then x.start else first
    ensures Chained(m, first', f[..i] + [x] + f[j..])
  {
    hide W, AddrOf;
    var g := f[..i] + [x] + f[j..];
    AddrSpliced(f, i, j, x, 0);
    forall y | 0 <= y < |g| ensures W(m, g[y].start) == AddrOf(g, y + 1) && W(m, g[y].start + 8) == g[y].len {
      AddrSpliced(f, i, j, x, y + 1);
      SpliceAt(f, i, j, x, y);
      var z := if y < i then y else y - i - 1 + j;
      if y != i {
        assert W(mem, f[z].start) == AddrOf(f, z + 1) && W(mem, f[z].start + 8) == f[z].len;
      }
    }
  }

  lemma AddrSpliced(f: seq<Blk>, i: nat, j: nat, x: Blk, y: nat)
    requires i <= j <= |f|
    ensures AddrOf(f[..i] + [x] + f[j..], y) == if y < i then AddrOf(f, y) else if y == i then x.start else AddrOf(f, y - i - 1 + j)
  {
  }

  // ---------- allocating ----------

  /** Taking `n` bytes from block `k`: the list, and whether the headers spell it out. */
  lemma TakenIs(mem: map<int, int>, first: int, f: seq<Blk>, k: nat, n: nat, lo: int, hi: int)
    requires Chained(mem, first, f) && Wordly(f, lo, hi) && k < |f| && n <= f[k].len && n % 8 == 0
    ensures Wordly(Carve(f, k, n), lo, hi) && Total(Carve(f, k, n)) == Total(f) - n
    ensures Chained(Taken(mem, PrevOf(f, k), f[k].start, n), if k == 0 then AddrOf(Carve(f, k, n), 0) else first, Carve(f, k, n))
            <==> !(n == 8 && f[k].len > n)
    ensures AddrOf(Carve(f, k, n), 0) == if k > 0 then first else if f[k].len == n then AddrOf(f, 1) else f[k].start + n
    ensures forall a :: !Covered(f, a) && !(f[k].len == n + 8 && a == f[k].End()) ==> W(Taken(mem, PrevOf(f, k), f[k].start, n), a) == W(mem, a)
    ensures f[k].len == n + 8 && n != 8 ==> W(Taken(mem, PrevOf(f, k), f[k].start, n), f[k].End()) == 8
  {
    hide Total, Chained, Wordly, Carve, Covered;
    NextIs(mem, first, f, k);
    CarveWords(f, k, n, lo, hi);
    CarveAddr(f, k, n);
    if n == f[k].len {
      CutChained(mem, first, f, k, lo, hi);
    } else {
      ShrinkChained(mem, first, f, k, n, lo, hi);
    }
    TakenFrame(mem, first, f, k, n, lo, hi);
  }

  lemma CarveWords(f: seq<Blk>, k: nat, n: nat, lo: int, hi: int)
    requires Wordly(f, lo, hi) && k < |f| && n <= f[k].len && n % 8 == 0
    ensures Wordly(Carve(f, k, n), lo, hi) && Total(Carve(f, k, n)) == Total(f) - n
  {
    hide Total, Sorted;
    if n > 0 {
      CarveOk(f, k, n, lo, hi);
    } else {
      BlocksAre(f, lo, hi);
      assert Carve(f, k, n) == f;
    }
  }

  lemma CarveAddr(f: seq<Blk>, k: nat, n: nat)
    requires k < |f| && n <= f[k].len
    ensures AddrOf(Carve(f, k, n), 0) == if k > 0 then AddrOf(f, 0) else if f[k].len == n then AddrOf(f, 1) else f[k].start + n
    ensures Carve(f, k, n) == if f[k].len == n then f[..k] + f[k + 1..] else f[..k] + [Blk(f[k].start + n, f[k].len - n)] + f[k + 1..]
  {
  }

  lemma ShrinkChained(mem: map<int, int>, first: int, f: seq<Blk>, k: nat, n: nat, lo: int, hi: int)
    requires Chained(mem, first, f) && Wordly(f, lo, hi) && k < |f| && n < f[k].len && n % 8 == 0
    ensures var g := f[..k] + [Blk(f[k].start + n, f[k].len - n)] + f[k + 1..];
            var m := Link(Leftover(mem, f[k].start, n), PrevOf(f, k), f[k].start + n);
            Chained(m, if k == 0 then f[k].start + n else first, g) <==> n != 8
  {
    hide Chained, Wordly, AddrOf;
    var x := Blk(f[k].start + n, f[k].len - n);
    var g := f[..k] + [x] + f[k + 1..];
    var m := Link(Leftover(mem, f[k].start, n), PrevOf(f, k), x.start);
    var first' := if k == 0 then x.start else first;
    BlocksAre(f, lo, hi);
    NextIs(mem, first, f, k);
    if n == 8 {
      SpliceAt(f, k, k + 1, x, k);
      NextFar(f, k, lo, hi);
      if Chained(m, first', g) { NextIs(m, first', g, k); }
    } else {
      forall y | 0 <= y < |f| && (y < k - 1 || y >= k + 1) ensures W(m, f[y].start) == W(mem, f[y].start) && W(m, f[y].start + 8) == W(mem, f[y].start + 8) {
        Far(f, y, k);
        if k > 0 && y != k - 1 { Far(f, y, k - 1); }
      }
      if k > 0 { Far(f, k - 1, k); }
      SpliceChained(mem, first, f, k, k + 1, x, m, first');
    }
  }

  lemma Far(f: seq<Blk>, y: nat, k: nat)
    requires y < |f| && k < |f| && y != k
    requires forall i, j :: 0 <= i < j < |f| ==> f[i].start + f[i].len + 8 <= f[j].start
    ensures if y < k then f[y].start + f[y].len + 8 <= f[k].start else f[k].start + f[k].len + 8 <= f[y].start
  {
  }

  /** A next pointer is no length. */
  lemma NextFar(f: seq<Blk>, k: nat, lo: int, hi: int)
    requires Wordly(f, lo, hi) && k < |f|
    ensures AddrOf(f, k + 1) == 0 || f[k].End() + 8 <= AddrOf(f, k + 1) < TWO64
  {
  }

  /** Only the leftover's header and the previous block's link are written. */
  lemma TakenWrites(mem: map<int, int>, prev: int, curr: int, n: int)
    ensures forall a :: a != curr + n && a != curr + n + 8 && a != prev ==> W(Taken(mem, prev, curr, n), a) == W(mem, a)
  {
  }

  lemma TakenFrame(mem: map<int, int>, first: int, f: seq<Blk>, k: nat, n: nat, lo: int, hi: int)
    requires Chained(mem, first, f) && Wordly(f, lo, hi) && k < |f| && n <= f[k].len && n % 8 == 0
    ensures forall a :: !Covered(f, a) && !(f[k].len == n + 8 && a == f[k].End()) ==> W(Taken(mem, PrevOf(f, k), f[k].start, n), a) == W(mem, a)
    ensures f[k].len == n + 8 && n != 8 ==> W(Taken(mem, PrevOf(f, k), f[k].start, n), f[k].End()) == 8
  {
    hide Chained, Covered, AddrOf;
    var prev, curr := PrevOf(f, k), f[k].start;
    NextIs(mem, first, f, k);
    BlocksAre(f, lo, hi);
    TakenWrites(mem, prev, curr, n);
    forall a | !Covered(f, a) && !(f[k].len == n + 8 && a == f[k].End()) ensures W(Taken(mem, prev, curr, n), a) == W(mem, a) {
      BlockCovers(f, k, a);
      if k > 0 { BlockCovers(f, k - 1, a); }
    }
  }

  lemma BlockCovers(f: seq<Blk>, k: nat, a: int)
    requires k < |f|
    ensures f[k].Has(a) ==> Covered(f, a)
  {
  }

  // ---------- freeing ----------

  /** Freeing whole words that do not wrap: the list, and whether the headers spell it out. */
  lemma FreedIs(mem: map<int, int>, first: int, f: seq<Blk>, lo: int, hi: int, start: nat, nbytes: nat, bytes: int)
    requires Chained(mem, first, f) && Wordly(f, lo, hi) && 0 < nbytes < TWO64 && bytes == Total(f)
    requires Admits(f, lo, hi, start, Round(nbytes)) && start % 8 == 0 && start + RoundUp(nbytes) < TWO64
    ensures var k, b := InsertAt(f, start, 0), Blk(start, Round(nbytes));
            var m := Freed(mem, PrevOf(f, k), AddrOf(f, k), start, b.len);
            GivenBack(mem, f, lo, hi, b, m, if k == 0 then start else first, Insert(f, b), Add64(bytes, b.len))
  {
    hide Chained, Total, Wordly, Freed, Insert, Merged, Covered, Squeezed, InsertAt, Sixteens, W;
    var k, b := InsertAt(f, start, 0), Blk(start, Round(nbytes));
    RoundIs(nbytes);
    InsertWords(f, lo, hi, b);
    PutChained(mem, first, f, b, lo, hi);
    PutFrame(mem, first, f, b, lo, hi);
    if Sixteens(f) && b.len % 16 == 0 {
      PutSixteens(f, b);
    }
  }

  lemma InsertWords(f: seq<Blk>, lo: int, hi: int, b: Blk)
    requires Wordly(f, lo, hi) && b.len > 0 && b.start % 8 == 0 && b.len % 8 == 0 && Accepts(f, lo, hi, b)
    ensures Wordly(Insert(f, b), lo, hi) && Total(Insert(f, b)) == Add64(Total(f), b.len)
  {
    hide Total, Sorted, InsertAt, Merged;
    InsertOk(f, lo, hi, b);
    TotalFits(Insert(f, b), lo, hi);
    TotalFits(f, lo, hi);
    var g, i, j, x := Insert(f, b), From(f, b), To(f, b), Merged(f, b);
    InsideHeap(g, lo, hi);
    MergedEights(f, b);
    forall y | 0 <= y < |g| ensures g[y].start % 8 == 0 && g[y].len % 8 == 0 {
      SpliceAt(f, i, j, x, y);
    }
  }

  lemma InsideHeap(f: seq<Blk>, lo: int, hi: int)
    requires Sorted(f, lo, hi)
    ensures forall i :: 0 <= i < |f| ==> lo <= f[i].start && f[i].End() <= hi
  {
  }

  lemma MergedEights(f: seq<Blk>, b: Blk)
    requires Eights(f) && b.start % 8 == 0 && b.len % 8 == 0
    ensures Merged(f, b).start % 8 == 0 && Merged(f, b).len % 8 == 0
  {
  }

  /** What merging makes of the block, and which words writing its header touches. */
  lemma MergedParts(f: seq<Blk>, b: Blk)
    ensures var k, x := InsertAt(f, b.start, 0), Merged(f, b);
            && (TouchesLeft(f, b) <==> k > 0 && f[k - 1].End() == b.start)
            && (TouchesRight(f, b) <==> k < |f| && b.End() == f[k].start)
            && x.start == (if TouchesLeft(f, b) then f[k - 1].start else b.start)
            && x.len == (if TouchesLeft(f, b) then f[k - 1].len else 0) + b.len + (if TouchesRight(f, b) then f[k].len else 0)
            && Insert(f, b) == f[..From(f, b)] + [x] + f[To(f, b)..]
  {
  }

  lemma FreedWrites(mem: map<int, int>, prev: int, curr: int, start: int, n: int)
    ensures var nb := if prev != 0 && Add64(prev, W(mem, prev + 8)) == start then prev else start;
            forall a :: a != nb && a != nb + 8 && (prev == 0 || a != prev) ==> W(Freed(mem, prev, curr, start, n), a) == W(mem, a)
  {
    hide Add64;
  }

  /** Writing a block that joins the one before it. */
  lemma FreedLeft(mem: map<int, int>, prev: int, curr: int, start: int, n: int)
    requires 0 < prev && 8 <= n && 8 <= W(mem, prev + 8) && prev + W(mem, prev + 8) == start
    requires curr != 0 ==> start + n <= curr && 0 < W(mem, curr + 8) && curr + W(mem, curr + 8) < TWO64
    requires start + n < TWO64
    ensures var m, full := Freed(mem, prev, curr, start, n), curr != 0 && start + n == curr;
            && W(m, prev) == W(mem, if full then curr else prev)
            && W(m, prev + 8) == W(mem, prev + 8) + n + if full then W(mem, curr + 8) else 0
  {
  }

  /** Writing a block that does not. */
  lemma FreedApart(mem: map<int, int>, prev: int, curr: int, start: int, n: int)
    requires 0 <= prev && 8 <= n && 0 < start && (prev != 0 ==> 8 <= W(mem, prev + 8) && prev + W(mem, prev + 8) < start)
    requires curr != 0 ==> start + n <= curr && 0 < W(mem, curr + 8) && curr + W(mem, curr + 8) < TWO64
    requires start + n < TWO64
    ensures var m, full := Freed(mem, prev, curr, start, n), curr != 0 && start + n == curr;
            && W(m, start + 8) == n + (if full then W(mem, curr + 8) else 0)
            && W(m, start) == (if !full then curr else if n == 8 then W(m, start + 8) else W(mem, curr))
            && (prev != 0 ==> W(m, prev) == start && W(m, prev + 8) == W(mem, prev + 8))
  {
  }

  /** The header of the merged block, and the link to it. */
  lemma PutWords(mem: map<int, int>, first: int, f: seq<Blk>, b: Blk, lo: int, hi: int)
    requires Chained(mem, first, f) && Wordly(f, lo, hi) && b.len >= 8 && Accepts(f, lo, hi, b)
    ensures var k, x := InsertAt(f, b.start, 0), Merged(f, b);
            var m := Freed(mem, PrevOf(f, k), AddrOf(f, k), b.start, b.len);
            && W(m, x.start) == (if Squeezed(f, b) then x.len else AddrOf(f, To(f, b)))
            && W(m, x.start + 8) == x.len
            && (k > 0 && !TouchesLeft(f, b) ==> W(m, f[k - 1].start) == x.start && W(m, f[k - 1].start + 8) == f[k - 1].len)
            && (forall a :: a != x.start && a != x.start + 8 && (k == 0 || a != f[k - 1].start) ==> W(m, a) == W(mem, a))
  {
    hide Chained, Wordly, InsertAt, Merged, Insert, Sorted, Freed, W, Accepts, Add64;
    var k := InsertAt(f, b.start, 0);
    NextIs(mem, first, f, k);
    Around(f, lo, hi, b);
    if k > 0 { NextIs(mem, first, f, k - 1); }
    MergedParts(f, b);
    Add64Is(PrevOf(f, k), W(mem, PrevOf(f, k) + 8));
    FreedWrites(mem, PrevOf(f, k), AddrOf(f, k), b.start, b.len);
    if TouchesLeft(f, b) {
      FreedLeft(mem, PrevOf(f, k), AddrOf(f, k), b.start, b.len);
    } else {
      FreedApart(mem, PrevOf(f, k), AddrOf(f, k), b.start, b.len);
    }
  }

  lemma Add64Is(a: int, b: int)
    ensures 0 <= a + b < TWO64 ==> Add64(a, b) == a + b
  {
  }

  /** The block and its neighbours lie in the heap, in order. */
  lemma Around(f: seq<Blk>, lo: int, hi: int, b: Blk)
    requires Wordly(f, lo, hi) && b.len > 0 && Accepts(f, lo, hi, b)
    ensures var k := InsertAt(f, b.start, 0);
            && 0 < b.start && b.End() < TWO64
            && (k > 0 ==> 0 < f[k - 1].start && 8 <= f[k - 1].len && f[k - 1].End() <= b.start)
            && (k < |f| ==> b.End() <= f[k].start && 8 <= f[k].len && f[k].End() < TWO64)
  {
    hide Wordly, InsertAt;
    BlocksAre(f, lo, hi);
    InHeap(f, lo, hi);
  }

  lemma InHeap(f: seq<Blk>, lo: int, hi: int)
    requires Wordly(f, lo, hi)
    ensures 0 < lo && hi < TWO64 && Eights(f)
  {
  }

  lemma PutChained(mem: map<int, int>, first: int, f: seq<Blk>, b: Blk, lo: int, hi: int)
    requires Chained(mem, first, f) && Wordly(f, lo, hi) && b.len >= 8 && b.start % 8 == 0 && b.len % 8 == 0 && Accepts(f, lo, hi, b)
    ensures var k := InsertAt(f, b.start, 0);
            var m := Freed(mem, PrevOf(f, k), AddrOf(f, k), b.start, b.len);
            Chained(m, if k == 0 then b.start else first, Insert(f, b)) <==> !Squeezed(f, b)
  {
    hide Chained, Wordly, InsertAt, Merged, Insert, Freed, Sorted, W;
    var k := InsertAt(f, b.start, 0);
    var i, j, x := From(f, b), To(f, b), Merged(f, b);
    var m := Freed(mem, PrevOf(f, k), AddrOf(f, k), b.start, b.len);
    var first' := if k == 0 then b.start else first;
    NextIs(mem, first, f, k);
    Around(f, lo, hi, b);
    MergedParts(f, b);
    PutWords(mem, first, f, b, lo, hi);
    if Squeezed(f, b) {
      SqueezedLost(m, first', f, b, lo, hi);
      return;
    }
    PutElsewhere(mem, f, b, m, lo, hi);
    if i > 0 && TouchesLeft(f, b) { NextIs(mem, first, f, i - 1); }
    SpliceChained(mem, first, f, i, j, x, m, first');
  }

  lemma PutElsewhere(mem: map<int, int>, f: seq<Blk>, b: Blk, m: map<int, int>, lo: int, hi: int)
    requires Wordly(f, lo, hi) && b.len >= 8 && Accepts(f, lo, hi, b)
    requires var k, x := InsertAt(f, b.start, 0), Merged(f, b);
             forall a :: a != x.start && a != x.start + 8 && (k == 0 || a != f[k - 1].start) ==> W(m, a) == W(mem, a)
    ensures forall y :: 0 <= y < |f| && (y + 1 < From(f, b) || (y + 1 == From(f, b) && TouchesLeft(f, b)) || y >= To(f, b)) ==>
              W(m, f[y].start) == W(mem, f[y].start) && W(m, f[y].start + 8) == W(mem, f[y].start + 8)
  {
    hide W, Wordly, InsertAt, Merged, Insert, Sorted, TouchesLeft, From, To;
    BlocksAre(f, lo, hi);
    forall y | 0 <= y < |f| && (y + 1 < From(f, b) || (y + 1 == From(f, b) && TouchesLeft(f, b)) || y >= To(f, b))
      ensures W(m, f[y].start) == W(mem, f[y].start) && W(m, f[y].start + 8) == W(mem, f[y].start + 8)
    {
      PutApart(f, b, y);
    }
  }

  /** Headers elsewhere in the list are not among the words written. */
  lemma PutApart(f: seq<Blk>, b: Blk, y: nat)
    requires forall i, j :: 0 <= i < j < |f| ==> f[i].start + f[i].len + 8 <= f[j].start
    requires forall i :: 0 <= i < |f| ==> 0 < f[i].start && 8 <= f[i].len
    requires b.len >= 8
    requires var k := InsertAt(f, b.start, 0); (k > 0 ==> f[k - 1].End() <= b.start) && (k < |f| ==> b.End() <= f[k].start)
    requires y < |f| && (y + 1 < From(f, b) || (y + 1 == From(f, b) && TouchesLeft(f, b)) || y >= To(f, b))
    ensures var k, x := InsertAt(f, b.start, 0), Merged(f, b).start;
            && f[y].start != x && f[y].start != x + 8 && (k > 0 ==> f[y].start != f[k - 1].start)
            && f[y].start + 8 != x && f[y].start + 8 != x + 8 && (k > 0 ==> f[y].start + 8 != f[k - 1].start)
  {
    hide InsertAt, Insert;
    MergedParts(f, b);
  }

  /** One word squeezed in before a free block: its length is written over that block's link. */
  lemma SqueezedLost(m: map<int, int>, first: int, f: seq<Blk>, b: Blk, lo: int, hi: int)
    requires Wordly(f, lo, hi) && Squeezed(f, b) && b.start > 0 && W(m, b.start) == Merged(f, b).len
    ensures !Chained(m, first, Insert(f, b))
  {
    hide Wordly, InsertAt, Merged, Insert, Chained;
    var g, i, j, x := Insert(f, b), From(f, b), To(f, b), Merged(f, b);
    MergedParts(f, b);
    BlocksAre(f, lo, hi);
    SpliceAt(f, i, j, x, i);
    AddrSpliced(f, i, j, x, i + 1);
    NextFar(f, i, lo, hi);
    if Chained(m, first, g) { NextIs(m, first, g, i); }
  }

  lemma PutFrame(mem: map<int, int>, first: int, f: seq<Blk>, b: Blk, lo: int, hi: int)
    requires Chained(mem, first, f) && Wordly(f, lo, hi) && b.len >= 8 && b.start % 8 == 0 && b.len % 8 == 0 && Accepts(f, lo, hi, b)
    ensures var k := InsertAt(f, b.start, 0);
            var m := Freed(mem, PrevOf(f, k), AddrOf(f, k), b.start, b.len);
            && (forall a :: !Covered(Insert(f, b), a) && !(Merged(f, b).len == 8 && a == b.start + 8) ==> W(m, a) == W(mem, a))
            && (Merged(f, b).len == 8 ==> W(m, b.start + 8) == 8)
  {
    hide Chained, Wordly, InsertAt, Merged, Insert, Freed, Covered, Sorted, W, Accepts;
    var k := InsertAt(f, b.start, 0);
    var g, i, j, x := Insert(f, b), From(f, b), To(f, b), Merged(f, b);
    var m := Freed(mem, PrevOf(f, k), AddrOf(f, k), b.start, b.len);
    Around(f, lo, hi, b);
    MergedParts(f, b);
    PutWords(mem, first, f, b, lo, hi);
    SpliceAt(f, i, j, x, i);
    if k > 0 && !TouchesLeft(f, b) { SpliceAt(f, i, j, x, k - 1); }
    InHeap(f, lo, hi);
    MergedEights(f, b);
    forall a | !Covered(g, a) && !(x.len == 8 && a == b.start + 8) ensures W(m, a) == W(mem, a) {
      BlockCovers(g, i, a);
      if k > 0 && !TouchesLeft(f, b) { BlockCovers(g, k - 1, a); }
      assert a != x.start && a != x.start + 8 && (k == 0 || a != f[k - 1].start);
    }
  }

  // ---------- when the headers are safe ----------

  /** Users of the heap write only words that are not free. */
  ghost predicate SameFree(f: seq<Blk>, mem: map<int, int>, m: map<int, int>) {
    forall a :: Covered(f, a) ==> W(m, a) == W(mem, a)
  }

  /** No use of the words handed out can break the list, exactly when every free block holds its header. */
  lemma HeadersSurviveIff(mem: map<int, int>, first: int, f: seq<Blk>, lo: int, hi: int)
    requires Chained(mem, first, f) && Wordly(f, lo, hi)
    ensures (forall m :: SameFree(f, mem, m) ==> Chained(m, first, f)) <==> forall i :: 0 <= i < |f| ==> f[i].len >= 16
  {
    hide Chained, Wordly;
    if i :| 0 <= i < |f| && f[i].len < 16 {
      var m := mem[f[i].start + 8 := 0];
      WordAfter(f, i, lo, hi);
      NextIs(mem, first, f, i);
      if Chained(m, first, f) { NextIs(m, first, f, i); }
      assert SameFree(f, mem, m);
    } else {
      forall m | SameFree(f, mem, m) ensures Chained(m, first, f) {
        LongChained(mem, first, f, m);
      }
    }
  }

  lemma WordAfter(f: seq<Blk>, i: nat, lo: int, hi: int)
    requires Wordly(f, lo, hi) && i < |f| && f[i].len < 16
    ensures f[i].len == 8 && !Covered(f, f[i].start + 8)
  {
  }

  lemma LongChained(mem: map<int, int>, first: int, f: seq<Blk>, m: map<int, int>)
    requires Chained(mem, first, f) && SameFree(f, mem, m) && forall i :: 0 <= i < |f| ==> f[i].len >= 16
    ensures Chained(m, first, f)
  {
    hide W, Covered;
    forall i | 0 <= i < |f| ensures W(m, f[i].start) == W(mem, f[i].start) && W(m, f[i].start + 8) == W(mem, f[i].start + 8) {
      BlockCovers(f, i, f[i].start);
      BlockCovers(f, i, f[i].start + 8);
    }
  }

  /** Every block big enough for `n` bytes is used up or leaves room for a header. */
  ghost predicate HeadersFit(lo: int, hi: int, n: int) {
    forall f: seq<Blk>, k: nat :: Sorted(f, lo, hi) && Sixteens(f) && k < |f| && n <= f[k].len ==> f[k].len == n || f[k].len >= n + 16
  }

  /** In a heap laid out in multiples of 16, remainders hold their headers exactly for multiples of 16. */
  lemma HeadersFitIff(lo: int, hi: int, n: int)
    requires (hi - lo) % 16 == 0 && n % 8 == 0 && 0 < n <= hi - lo
    ensures HeadersFit(lo, hi, n) <==> n % 16 == 0
  {
    hide Sorted, Sixteens;
    var f := [Blk(lo, n + 8)];
    if n % 16 == 0 {
      forall g: seq<Blk>, k: nat | Sorted(g, lo, hi) && Sixteens(g) && k < |g| && n <= g[k].len ensures g[k].len == n || g[k].len >= n + 16 {
        SixteenAt(g, k);
      }
    } else {
      OneSixteen(f, lo, hi, n + 8);
      assert f[0].len == n + 8;
    }
  }

  lemma SixteenAt(f: seq<Blk>, k: nat)
    requires Sixteens(f) && k < |f|
    ensures f[k].len % 16 == 0
  {
  }

  lemma OneSixteen(f: seq<Blk>, lo: int, hi: int, n: int)
    requires f == [Blk(lo, n)] && n % 16 == 0 && 0 < n <= hi - lo
    ensures Sorted(f, lo, hi) && Sixteens(f)
  {
  }

  /** Allocating multiples of 16 keeps such a layout, and no word in use is written. */
  lemma TakeSixteens(f: seq<Blk>, k: nat, n: nat)
    requires Sixteens(f) && k < |f| && n <= f[k].len && n % 16 == 0
    ensures Sixteens(Carve(f, k, n)) && n != 8 && f[k].len != n + 8
  {
    var g := Carve(f, k, n);
    forall y | 0 <= y < |g| ensures g[y].len % 16 == 0 {
      assert g[y] == if f[k].len != n && y == k then Blk(f[k].start + n, f[k].len - n) else f[if f[k].len == n && y >= k then y + 1 else y];
    }
  }

  /** So does freeing them. */
  lemma PutSixteens(f: seq<Blk>, b: Blk)
    requires Sixteens(f) && b.len % 16 == 0
    ensures Sixteens(Insert(f, b)) && !Squeezed(f, b) && Merged(f, b).len != 8
  {
    hide InsertAt;
    var g, i, j, x := Insert(f, b), From(f, b), To(f, b), Merged(f, b);
    MergedParts(f, b);
    forall y | 0 <= y < |g| ensures g[y].len % 16 == 0 {
      SpliceAt(f, i, j, x, y);
    }
  }

  lemma OneBlock(f: seq<Blk>, a: int, len: int, n: int)
    requires f == [Blk(a, len)] && n <= len
    ensures FirstFit(f, n, 0) == 0 && (Splits(f, n) <==> n < len)
    ensures if n == len then |Carve(f, 0, n)| == 0 else Carve(f, 0, n) == [Blk(a + n, len - n)]
  {
  }

  lemma NoBlock(f: seq<Blk>, lo: int, hi: int, b: Blk)
    requires f == [] && lo <= b.start && 0 <= b.start && 0 <= b.len && b.End() <= hi < TWO64
    ensures Admits(f, lo, hi, b.start, b.len) && Insert(f, b) == [b] && !Squeezed(f, b)
  {
  }

  lemma RoundWords(n: nat)
    requires n % 8 == 0 && n < TWO64
    ensures Round(n) == n && RoundUp(n) == n
  {
  }

  /** Blocks of 24 bytes: the header of an 8-byte remainder lands in the live block after it. */
  method LiveWordLost(v: int) returns (before: int, after: int)
    ensures before == v && after == 8
  {
    hide FirstFit, Splits, Carve, Admits, InsertAt, Insert, Squeezed, Round, RoundUp, Taken, Freed, Wordly, Total, Covered, Merged, Add64;
    RoundWords(24);
    RoundWords(16);
    var h := new FirstFitHeap(16, 64);
    OneBlock(h.f, 16, 48, 24);
    var a := h.Getmem(24);
    OneBlock(h.f, 40, 24, 24);
    var b := h.Getmem(24);
    h.mem := h.mem[b := v];
    before := W(h.mem, b);
    NoBlock(h.f, h.lo, h.hi, Blk(a, 24));
    var r := h.Freemem(a, 24);
    OneBlock(h.f, 16, 24, 16);
    var c := h.Getmem(16);
    after := W(h.mem, b);
  }

  /** One word off a fresh heap: the link of what is left overwrites the length it is computed from. */
  method OneWordLost() returns (len: int)
    ensures len == TWO64 - 8
  {
    hide FirstFit, Splits, Carve, Round, Wordly, Total, Covered;
    RoundWords(8);
    var h := new FirstFitHeap(16, 64);
    OneBlock(h.f, 16, 48, 8);
    NextIs(h.mem, h.first, h.f, 0);
    var a := h.Getmem(8);
    len := W(h.mem, a + 16);
  }

  /** Giving back what was just taken is safe whenever taking it was. */
  lemma UndoIsSafe(f: seq<Blk>, k: nat, n: int, lo: int, hi: int)
    requires Wordly(f, lo, hi) && k < |f| && 0 < n <= f[k].len
    ensures Squeezed(Carve(f, k, n), Blk(f[k].start, n)) <==> n == 8 && f[k].len > n
  {
    hide InsertAt;
    var g := Carve(f, k, n);
    CarveAddr(f, k, n);
    assert forall y :: 0 <= y < k ==> g[y] == f[y];
    if f[k].len == n {
      assert k < |g| ==> g[k] == f[k + 1];
    }
  }

  // ---------- sizes that wrap around the address space ----------

  /** An accepted block really lies in the heap with none of its bytes free exactly when its end does not wrap. */
  lemma AcceptedIffNoWrap(f: seq<Blk>, lo: int, hi: int, start: nat, nbytes: nat)
    requires Sorted(f, lo, hi) && 0 < lo && hi < TWO64 && start < TWO64 && 0 < nbytes < TWO64
    requires Admits(f, lo, hi, start, Round(nbytes))
    ensures (start + RoundUp(nbytes) <= hi && forall a :: start <= a < start + RoundUp(nbytes) ==> !Covered(f, a))
            <==> start + RoundUp(nbytes) < TWO64
  {
    hide Sorted, Covered, InsertAt;
    RoundIs(nbytes);
    if start + RoundUp(nbytes) < TWO64 {
      var b := Blk(start, Round(nbytes));
      AcceptsIffUsed(f, lo, hi, b);
      assert forall a :: start <= a < start + RoundUp(nbytes) ==> b.Has(a);
    }
  }

  /** With the whole heap in use, its first block is taken back with a length that runs past the end of the heap. */
  lemma WrappingFree(mem: map<int, int>, lo: int, hi: int)
    requires 0 < lo < hi < TWO64 && lo % 8 == 0
    ensures Round(TWO64 - lo) == TWO64 - lo && Admits([], lo, hi, lo, TWO64 - lo)
    ensures W(Freed(mem, 0, 0, lo, TWO64 - lo), lo + 8) == TWO64 - lo > hi - lo
  {
  }
}
