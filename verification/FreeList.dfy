/**
 The heap's free list as a sequence of blocks, and what allocating and freeing do to it.
 */
module FreeList {
  import opened Common

  datatype Blk = Blk(start: int, len: int) {
    function End(): int { start + len }
    predicate Has(a: int) { start <= a < start + len }
  }

  /** Sizes are rounded up to 8 bytes in 64-bit arithmetic, so the seven largest wrap to 0. */
  function Round(n: nat): (r: nat)
    requires n < TWO64
    ensures r % 8 == 0
    ensures n <= TWO64 - 8 ==> n <= r < n + 8 && r < TWO64
    ensures n > TWO64 - 8 ==> r == 0
  {
    (n + 7) % TWO64 / 8 * 8
  }

  /** The rounding meant: up to whole words, without a limit. */
  function RoundUp(n: nat): nat {
    (n + 7) / 8 * 8
  }

  lemma RoundIs(n: nat)
    requires n < TWO64
    ensures Round(n) == if RoundUp(n) < TWO64 then RoundUp(n) else 0
    ensures n <= RoundUp(n) < n + 8
  {
  }

  /** Free blocks in address order, inside the heap, with a used byte between any two. */
  predicate Sorted(f: seq<Blk>, lo: int, hi: int) {
    && (forall i :: 0 <= i < |f| ==> lo <= f[i].start && f[i].len > 0 && f[i].End() <= hi)
    && (forall i, j :: 0 <= i < j < |f| ==> f[i].End() < f[j].start)
  }

  predicate Covered(f: seq<Blk>, a: int) {
    exists i :: 0 <= i < |f| && f[i].Has(a)
  }

  function Total(f: seq<Blk>): int {
    if f == [] then 0 else Total(f[..|f| - 1]) + f[|f| - 1].len
  }

  // ---------- allocating ----------

  /** First fit: the lowest block with at least `n` bytes, at or after `i`; |f| if there is none. */
  function FirstFit(f: seq<Blk>, n: int, i: nat): (r: nat)
    requires i <= |f|
    ensures i <= r <= |f|
    ensures r < |f| ==> f[r].len >= n
    ensures forall j :: i <= j < r ==> f[j].len < n
    decreases |f| - i
  {
    if i == |f| || f[i].len >= n then i else FirstFit(f, n, i + 1)
  }

  /** Take `n` bytes from the front of block `k`. */
  function Carve(f: seq<Blk>, k: nat, n: int): seq<Blk>
    requires k < |f|
  {
    if f[k].len == n then f[..k] + f[k + 1..]
    else f[k := Blk(f[k].start + n, f[k].len - n)]
  }

  /** Carving keeps the list in shape and takes `n` off the total. */
  lemma CarveOk(f: seq<Blk>, k: nat, n: int, lo: int, hi: int)
    requires Sorted(f, lo, hi) && k < |f| && 0 < n <= f[k].len
    ensures Sorted(Carve(f, k, n), lo, hi)
    ensures Total(Carve(f, k, n)) == Total(f) - n
  {
    hide Total;
    if f[k].len == n {
      CutSorted(f, k, k + 1, lo, hi);
      TotalSplit(f, k);
      TotalCat(f[..k], f[k + 1..]);
    } else {
      TotalUpdate(f, k, Blk(f[k].start + n, f[k].len - n));
    }
  }

  lemma CutSorted(f: seq<Blk>, i: nat, j: nat, lo: int, hi: int)
    requires Sorted(f, lo, hi) && i <= j <= |f|
    ensures Sorted(f[..i] + f[j..], lo, hi)
  {
    var g := f[..i] + f[j..];
    assert forall y :: 0 <= y < |g| ==> g[y] == if y < i then f[y] else f[y - i + j];
  }

  lemma CarveCovers(f: seq<Blk>, k: nat, n: int, lo: int, hi: int, a: int)
    requires Sorted(f, lo, hi) && k < |f| && 0 < n <= f[k].len
    ensures Covered(Carve(f, k, n), a) <==> Covered(f, a) && !(f[k].start <= a < f[k].start + n)
  {
    if f[k].len == n {
      CutCovers(f, k, k + 1, a);
      if Covered(f, a) {
        var i :| 0 <= i < |f| && f[i].Has(a);
        assert forall x :: 0 <= x < |f| && f[x].Has(a) ==> x == i;
      }
    } else {
      var g := Carve(f, k, n);
      if Covered(f, a) && !(f[k].start <= a < f[k].start + n) {
        var i :| 0 <= i < |f| && f[i].Has(a);
        assert g[i].Has(a);
      }
      if Covered(g, a) {
        var i :| 0 <= i < |g| && g[i].Has(a);
        assert f[i].Has(a);
      }
    }
  }

  /** A byte is covered after cutting out `f[i..j]` iff a remaining block has it. */
  lemma CutCovers(f: seq<Blk>, i: nat, j: nat, a: int)
    requires i <= j <= |f|
    ensures Covered(f[..i] + f[j..], a) <==> exists x :: 0 <= x < |f| && (x < i || x >= j) && f[x].Has(a)
  {
    var g := f[..i] + f[j..];
    if Covered(g, a) {
      var y :| 0 <= y < |g| && g[y].Has(a);
      assert f[if y < i then y else y - i + j].Has(a);
    }
    if x :| 0 <= x < |f| && (x < i || x >= j) && f[x].Has(a) {
      assert g[if x < i then x else x - j + i].Has(a);
    }
  }

  // ---------- freeing ----------

  /** Where a block starting at `start` goes: the first block not before it. */
  function InsertAt(f: seq<Blk>, start: int, i: nat): (r: nat)
    requires i <= |f|
    ensures i <= r <= |f|
    ensures r < |f| ==> f[r].start >= start
    ensures forall j :: i <= j < r ==> f[j].start < start
    decreases |f| - i
  {
    if i == |f| || f[i].start >= start then i else InsertAt(f, start, i + 1)
  }

  /** The checks: in the heap, and clear of the neighbours. */
  predicate Accepts(f: seq<Blk>, lo: int, hi: int, b: Blk) {
    var k := InsertAt(f, b.start, 0);
    && lo <= b.start && b.End() <= hi
    && (k > 0 ==> f[k - 1].End() <= b.start)
    && (k < |f| ==> b.End() <= f[k].start)
  }

  predicate TouchesLeft(f: seq<Blk>, b: Blk) {
    var k := InsertAt(f, b.start, 0);
    k > 0 && f[k - 1].End() == b.start
  }

  predicate TouchesRight(f: seq<Blk>, b: Blk) {
    var k := InsertAt(f, b.start, 0);
    k < |f| && b.End() == f[k].start
  }

  /** The blocks `f[From..To]` disappear into the merged one. */
  function From(f: seq<Blk>, b: Blk): (i: nat)
    ensures i <= InsertAt(f, b.start, 0) && (TouchesLeft(f, b) <==> i == InsertAt(f, b.start, 0) - 1)
    ensures !TouchesLeft(f, b) <==> i == InsertAt(f, b.start, 0)
  {
    var k := InsertAt(f, b.start, 0);
    if TouchesLeft(f, b) then k - 1 else k
  }

  function To(f: seq<Blk>, b: Blk): (j: nat)
    ensures InsertAt(f, b.start, 0) <= j <= |f| && (TouchesRight(f, b) <==> j == InsertAt(f, b.start, 0) + 1)
    ensures !TouchesRight(f, b) <==> j == InsertAt(f, b.start, 0)
  {
    var k := InsertAt(f, b.start, 0);
    if TouchesRight(f, b) then k + 1 else k
  }

  function Merged(f: seq<Blk>, b: Blk): Blk {
    var k := InsertAt(f, b.start, 0);
    var n := if TouchesLeft(f, b) then Blk(f[k - 1].start, f[k - 1].len + b.len) else b;
    if TouchesRight(f, b) then Blk(n.start, n.len + f[k].len) else n
  }

  /** Insert and merge with whichever neighbours touch. */
  function Insert(f: seq<Blk>, b: Blk): seq<Blk> {
    f[..From(f, b)] + [Merged(f, b)] + f[To(f, b)..]
  }

  /** A block is accepted exactly when it lies in the heap and none of its bytes is free. */
  lemma AcceptsIffUsed(f: seq<Blk>, lo: int, hi: int, b: Blk)
    requires Sorted(f, lo, hi) && b.len > 0
    ensures Accepts(f, lo, hi, b) <==> lo <= b.start && b.End() <= hi && forall a :: b.Has(a) ==> !Covered(f, a)
  {
    var k := InsertAt(f, b.start, 0);
    if Accepts(f, lo, hi, b) {
      assert forall a :: b.Has(a) ==> !Covered(f, a);
    } else if lo <= b.start && b.End() <= hi {
      if k > 0 && f[k - 1].End() > b.start {
        assert b.Has(b.start) && f[k - 1].Has(b.start);
      } else {
        assert b.Has(f[k].start) && f[k].Has(f[k].start);
      }
    }
  }

  /** What the merged block is made of and what surrounds it. */
  lemma MergedIs(f: seq<Blk>, lo: int, hi: int, b: Blk)
    requires Sorted(f, lo, hi) && b.len > 0 && Accepts(f, lo, hi, b)
    ensures var i, j, x := From(f, b), To(f, b), Merged(f, b);
            && lo <= x.start && x.len > 0 && x.End() <= hi
            && (i > 0 ==> f[i - 1].End() < x.start) && (j < |f| ==> x.End() < f[j].start)
            && x.len == b.len + Total(f[i..j])
            && forall a :: x.Has(a) <==> b.Has(a) || exists y :: i <= y < j && f[y].Has(a)
  {
    hide Total, InsertAt;
    var i, j, x := From(f, b), To(f, b), Merged(f, b);
    var k := InsertAt(f, b.start, 0);
    if TouchesLeft(f, b) && TouchesRight(f, b) {
      assert f[i..j] == [f[k - 1]] + [f[k]];
      TotalCat([f[k - 1]], [f[k]]);
      TotalOne(f[k - 1]);
      TotalOne(f[k]);
    } else if TouchesLeft(f, b) {
      assert f[i..j] == [f[k - 1]];
      TotalOne(f[k - 1]);
    } else if TouchesRight(f, b) {
      assert f[i..j] == [f[k]];
      TotalOne(f[k]);
    } else {
      assert f[i..j] == [];
      TotalNone();
    }
  }

  lemma SpliceSorted(f: seq<Blk>, i: nat, j: nat, x: Blk, lo: int, hi: int)
    requires Sorted(f, lo, hi) && i <= j <= |f|
    requires lo <= x.start && x.len > 0 && x.End() <= hi
    requires (i > 0 ==> f[i - 1].End() < x.start) && (j < |f| ==> x.End() < f[j].start)
    ensures Sorted(f[..i] + [x] + f[j..], lo, hi)
  {
    var g := f[..i] + [x] + f[j..];
    forall y | 0 <= y < |g| ensures lo <= g[y].start && g[y].len > 0 && g[y].End() <= hi {
      SpliceAt(f, i, j, x, y);
    }
    forall y, z | 0 <= y < z < |g| ensures g[y].End() < g[z].start {
      SpliceAt(f, i, j, x, y);
      SpliceAt(f, i, j, x, z);
    }
  }

  lemma SpliceAt(f: seq<Blk>, i: nat, j: nat, x: Blk, y: nat)
    requires i <= j <= |f| && y < i + 1 + |f| - j
    ensures (f[..i] + [x] + f[j..])[y] == if y < i then f[y] else if y == i then x else f[y - i - 1 + j]
  {
  }

  lemma InsertOk(f: seq<Blk>, lo: int, hi: int, b: Blk)
    requires Sorted(f, lo, hi) && b.len > 0 && Accepts(f, lo, hi, b)
    ensures Sorted(Insert(f, b), lo, hi)
    ensures Total(Insert(f, b)) == Total(f) + b.len
  {
    hide Sorted, Accepts, From, To, Merged, Total;
    var i, j, x := From(f, b), To(f, b), Merged(f, b);
    MergedIs(f, lo, hi, b);
    SpliceSorted(f, i, j, x, lo, hi);
    TotalCat(f[..i] + [x], f[j..]);
    TotalCat(f[..i], [x]);
    TotalOne(x);
    assert f == f[..i] + (f[i..j] + f[j..]);
    TotalCat(f[..i], f[i..j] + f[j..]);
    TotalCat(f[i..j], f[j..]);
  }

  lemma SpliceCovers(f: seq<Blk>, i: nat, j: nat, x: Blk, a: int)
    requires i <= j <= |f|
    ensures Covered(f[..i] + [x] + f[j..], a) <==> x.Has(a) || exists y :: 0 <= y < |f| && (y < i || y >= j) && f[y].Has(a)
  {
    var g := f[..i] + [x] + f[j..];
    if Covered(g, a) {
      var y :| 0 <= y < |g| && g[y].Has(a);
      if y != i {
        assert f[if y < i then y else y - i - 1 + j].Has(a);
      }
    }
    if x.Has(a) {
      assert g[i].Has(a);
    }
    if y :| 0 <= y < |f| && (y < i || y >= j) && f[y].Has(a) {
      assert g[if y < i then y else y - j + i + 1].Has(a);
    }
  }

  lemma InsertCovers(f: seq<Blk>, lo: int, hi: int, b: Blk, a: int)
    requires Sorted(f, lo, hi) && b.len > 0 && Accepts(f, lo, hi, b)
    ensures Covered(Insert(f, b), a) <==> Covered(f, a) || b.Has(a)
  {
    hide Sorted, Accepts, From, To, Merged, Total;
    var i, j, x := From(f, b), To(f, b), Merged(f, b);
    MergedIs(f, lo, hi, b);
    SpliceCovers(f, i, j, x, a);
    CoveredSomewhere(f, i, j, a);
  }

  lemma CoveredSomewhere(f: seq<Blk>, i: nat, j: nat, a: int)
    requires i <= j <= |f|
    ensures Covered(f, a) <==> (exists y :: i <= y < j && f[y].Has(a)) || (exists y :: 0 <= y < |f| && (y < i || y >= j) && f[y].Has(a))
  {
    if Covered(f, a) {
      var y :| 0 <= y < |f| && f[y].Has(a);
      assert i <= y < j || y < i || y >= j;
    }
  }

  // ---------- sums ----------

  lemma {:induction false} TotalCat(f: seq<Blk>, g: seq<Blk>)
    ensures Total(f + g) == Total(f) + Total(g)
    decreases |g|
  {
    if g == [] {
      assert f + g == f;
    } else {
      TotalCat(f, g[..|g| - 1]);
      assert (f + g)[..|f + g| - 1] == f + g[..|g| - 1];
    }
  }

  /** The free bytes are no more than the heap. */
  lemma {:induction false} TotalFits(f: seq<Blk>, lo: int, hi: int)
    requires Sorted(f, lo, hi)
    ensures 0 <= Total(f) && if f == [] then Total(f) == 0 else Total(f) <= f[|f| - 1].End() - lo
  {
    if f != [] {
      TotalFits(f[..|f| - 1], lo, hi);
    }
  }

  lemma TotalNone()
    ensures Total([]) == 0
  {
  }

  lemma TotalOne(b: Blk)
    ensures Total([b]) == b.len
  {
    assert [b][..0] == [];
  }

  lemma TotalSplit(f: seq<Blk>, k: nat)
    requires k < |f|
    ensures Total(f) == Total(f[..k]) + f[k].len + Total(f[k + 1..])
  {
    hide Total;
    assert f == f[..k] + ([f[k]] + f[k + 1..]);
    TotalCat(f[..k], [f[k]] + f[k + 1..]);
    TotalCat([f[k]], f[k + 1..]);
    TotalOne(f[k]);
  }

  lemma TotalUpdate(f: seq<Blk>, k: nat, b: Blk)
    requires k < |f|
    ensures Total(f[k := b]) == Total(f) - f[k].len + b.len
  {
    TotalSplit(f, k);
    TotalSplit(f[k := b], k);
    assert f[k := b][..k] == f[..k] && f[k := b][k + 1..] == f[k + 1..];
  }

  // ---------- the list is determined by what is free ----------

  /** Two lists in shape that cover the same bytes are the same list. */
  lemma {:induction false} Canonical(f: seq<Blk>, g: seq<Blk>, lo: int, hi: int)
    requires Sorted(f, lo, hi) && Sorted(g, lo, hi)
    requires forall a :: Covered(f, a) <==> Covered(g, a)
    ensures f == g
    decreases |f|
  {
    hide Sorted, Covered;
    BothEmpty(f, g, lo, hi);
    if f == [] {
      return;
    }
    SameHead(f, g, lo, hi);
    forall a ensures Covered(f[1..], a) <==> Covered(g[1..], a) {
      TailCovers(f, lo, hi, a);
      TailCovers(g, lo, hi, a);
    }
    TailSorted(f, lo, hi);
    TailSorted(g, lo, hi);
    Canonical(f[1..], g[1..], lo, hi);
    assert f == [f[0]] + f[1..] && g == [g[0]] + g[1..];
  }

  lemma BothEmpty(f: seq<Blk>, g: seq<Blk>, lo: int, hi: int)
    requires Sorted(f, lo, hi) && Sorted(g, lo, hi)
    requires forall a :: Covered(f, a) <==> Covered(g, a)
    ensures f == [] <==> g == []
  {
    if f != [] {
      assert f[0].Has(f[0].start);
      assert Covered(f, f[0].start);
    }
    if g != [] {
      assert g[0].Has(g[0].start);
      assert Covered(g, g[0].start);
    }
  }

  lemma TailSorted(f: seq<Blk>, lo: int, hi: int)
    requires Sorted(f, lo, hi) && f != []
    ensures Sorted(f[1..], lo, hi)
  {
  }

  lemma TailCovers(f: seq<Blk>, lo: int, hi: int, a: int)
    requires Sorted(f, lo, hi) && f != []
    ensures Covered(f[1..], a) <==> Covered(f, a) && !f[0].Has(a)
  {
    if Covered(f[1..], a) {
      var i :| 0 <= i < |f[1..]| && f[1..][i].Has(a);
      assert f[i + 1].Has(a);
    }
    if Covered(f, a) && !f[0].Has(a) {
      var i :| 0 <= i < |f| && f[i].Has(a);
      assert f[1..][i - 1].Has(a);
    }
  }

  lemma SameHead(f: seq<Blk>, g: seq<Blk>, lo: int, hi: int)
    requires Sorted(f, lo, hi) && Sorted(g, lo, hi) && f != [] && g != []
    requires forall a :: Covered(f, a) <==> Covered(g, a)
    ensures f[0] == g[0]
  {
    HeadStart(f, g, lo, hi);
    HeadStart(g, f, lo, hi);
    HeadEnd(f, g, lo, hi);
    HeadEnd(g, f, lo, hi);
  }

  lemma HeadStart(f: seq<Blk>, g: seq<Blk>, lo: int, hi: int)
    requires Sorted(f, lo, hi) && Sorted(g, lo, hi) && f != [] && g != []
    requires forall a :: Covered(f, a) <==> Covered(g, a)
    ensures f[0].start >= g[0].start
  {
    assert f[0].Has(f[0].start);
    assert Covered(f, f[0].start);
    var i :| 0 <= i < |g| && g[i].Has(f[0].start);
  }

  lemma HeadEnd(f: seq<Blk>, g: seq<Blk>, lo: int, hi: int)
    requires Sorted(f, lo, hi) && Sorted(g, lo, hi) && f != [] && g != [] && f[0].start == g[0].start
    requires forall a :: Covered(f, a) <==> Covered(g, a)
    ensures f[0].len <= g[0].len
  {
    var a := g[0].End();
    assert !Covered(g, a);
    assert f[0].Has(a) ==> Covered(f, a);
  }

  /** Freeing what was just allocated restores the list exactly. */
  lemma FreeUndoesAlloc(f: seq<Blk>, k: nat, n: int, lo: int, hi: int)
    requires Sorted(f, lo, hi) && k < |f| && 0 < n <= f[k].len
    ensures var b := Blk(f[k].start, n);
            Accepts(Carve(f, k, n), lo, hi, b) && Insert(Carve(f, k, n), b) == f
  {
    hide Carve, Insert, Accepts, Sorted, Covered;
    var b, g := Blk(f[k].start, n), Carve(f, k, n);
    CarveOk(f, k, n, lo, hi);
    CarvedIsUsed(f, k, n, lo, hi);
    InsertOk(g, lo, hi, b);
    forall a ensures Covered(Insert(g, b), a) <==> Covered(f, a) {
      CarveCovers(f, k, n, lo, hi, a);
      InsertCovers(g, lo, hi, b, a);
      CoveredBy(f, k, n, a);
    }
    Canonical(Insert(g, b), f, lo, hi);
  }

  lemma CoveredBy(f: seq<Blk>, k: nat, n: int, a: int)
    requires k < |f| && n <= f[k].len
    ensures f[k].start <= a < f[k].start + n ==> Covered(f, a)
  {
    assert f[k].start <= a < f[k].start + n ==> f[k].Has(a);
  }

  lemma CarvedIsUsed(f: seq<Blk>, k: nat, n: int, lo: int, hi: int)
    requires Sorted(f, lo, hi) && k < |f| && 0 < n <= f[k].len
    ensures Accepts(Carve(f, k, n), lo, hi, Blk(f[k].start, n))
  {
    hide Carve, Accepts;
    var b, g := Blk(f[k].start, n), Carve(f, k, n);
    CarveOk(f, k, n, lo, hi);
    forall a | b.Has(a) ensures !Covered(g, a) {
      CarveCovers(f, k, n, lo, hi, a);
    }
    AcceptsIffUsed(g, lo, hi, b);
  }

  /** A granted request is really taken out of the free list exactly when its rounding did not wrap. */
  lemma GrantedIffNotHuge(f: seq<Blk>, nbytes: nat, lo: int, hi: int)
    requires Sorted(f, lo, hi) && 0 < nbytes < TWO64
    requires FirstFit(f, Round(nbytes), 0) < |f|
    ensures var k := FirstFit(f, Round(nbytes), 0);
            !Covered(Carve(f, k, Round(nbytes)), f[k].start) <==> nbytes <= TWO64 - 8
  {
    var n := Round(nbytes);
    var k := FirstFit(f, n, 0);
    if nbytes <= TWO64 - 8 {
      CarveCovers(f, k, n, lo, hi, f[k].start);
    } else {
      assert Carve(f, k, n) == f && f[k].Has(f[k].start);
    }
  }

  // ---------- freeing in any order ----------

  /** Free the blocks of `bs` in turn; `None` as soon as one is refused. */
  function FreeAll(f: seq<Blk>, lo: int, hi: int, bs: seq<Blk>): Option<seq<Blk>>
    decreases |bs|
  {
    if bs == [] then Some(f)
    else if Accepts(f, lo, hi, bs[0]) then FreeAll(Insert(f, bs[0]), lo, hi, bs[1..])
    else None
  }

  lemma {:induction false} FreeAllOk(f: seq<Blk>, lo: int, hi: int, bs: seq<Blk>)
    requires Sorted(f, lo, hi) && (forall b :: b in bs ==> b.len > 0) && FreeAll(f, lo, hi, bs).Some?
    ensures Sorted(FreeAll(f, lo, hi, bs).value, lo, hi)
    ensures forall a :: Covered(FreeAll(f, lo, hi, bs).value, a) <==> Covered(f, a) || Covered(bs, a)
    decreases |bs|
  {
    hide Accepts, Insert, Sorted, Covered;
    if bs == [] {
      forall a ensures !Covered(bs, a) { NoneCovered(a); }
      return;
    }
    var b := bs[0];
    InsertOk(f, lo, hi, b);
    FreeAllOk(Insert(f, b), lo, hi, bs[1..]);
    forall a ensures Covered(FreeAll(f, lo, hi, bs).value, a) <==> Covered(f, a) || Covered(bs, a) {
      InsertCovers(f, lo, hi, b, a);
      ConsCovered(bs, a);
    }
  }

  lemma NoneCovered(a: int)
    ensures !Covered([], a)
  {
  }

  lemma ConsCovered(bs: seq<Blk>, a: int)
    requires bs != []
    ensures Covered(bs, a) <==> bs[0].Has(a) || Covered(bs[1..], a)
  {
    if Covered(bs[1..], a) {
      var i :| 0 <= i < |bs[1..]| && bs[1..][i].Has(a);
      assert bs[i + 1].Has(a);
    }
    if Covered(bs, a) && !bs[0].Has(a) {
      var i :| 0 <= i < |bs| && bs[i].Has(a);
      assert bs[1..][i - 1].Has(a);
    }
  }

  predicate Apart(b: Blk, c: Blk) {
    b.End() <= c.start || c.End() <= b.start
  }

  /** Blocks in use, each listed once, no two overlapping. */
  ghost predicate Freeable(f: seq<Blk>, lo: int, hi: int, bs: seq<Blk>) {
    && (forall b :: b in bs ==> lo <= b.start && b.End() <= hi && Unused(f, b))
    && (forall b :: b in bs ==> multiset(bs)[b] == 1)
    && (forall b, c :: b in bs && c in bs && b != c ==> Apart(b, c))
  }

  /** None of its bytes is free. */
  ghost predicate Unused(f: seq<Blk>, b: Blk) {
    forall a :: b.Has(a) ==> !Covered(f, a)
  }

  lemma UnusedAfter(f: seq<Blk>, lo: int, hi: int, b: Blk, c: Blk)
    requires Sorted(f, lo, hi) && b.len > 0 && c.len > 0 && Accepts(f, lo, hi, b)
    ensures Unused(Insert(f, b), c) <==> Unused(f, c) && Apart(b, c)
  {
    hide Insert, Accepts, Sorted, Covered;
    forall a ensures Covered(Insert(f, b), a) <==> Covered(f, a) || b.Has(a) {
      InsertCovers(f, lo, hi, b, a);
    }
    if !Apart(b, c) {
      var a := if b.start <= c.start then c.start else b.start;
      assert b.Has(a) && c.Has(a);
    }
  }

  /** A series of frees goes through exactly when its blocks are freeable. */
  lemma {:induction false} FreeAllIff(f: seq<Blk>, lo: int, hi: int, bs: seq<Blk>)
    requires Sorted(f, lo, hi) && forall b :: b in bs ==> b.len > 0
    ensures FreeAll(f, lo, hi, bs).Some? <==> Freeable(f, lo, hi, bs)
    decreases |bs|
  {
    hide Accepts, Insert, Sorted, Unused;
    if bs == [] {
      return;
    }
    var b, rest := bs[0], bs[1..];
    assert bs == [b] + rest;
    AcceptsUnused(f, lo, hi, b);
    if Accepts(f, lo, hi, b) {
      InsertOk(f, lo, hi, b);
      FreeAllIff(Insert(f, b), lo, hi, rest);
      forall c | c in rest ensures Unused(Insert(f, b), c) <==> Unused(f, c) && Apart(b, c) {
        UnusedAfter(f, lo, hi, b, c);
      }
      FreeableCons(f, Insert(f, b), lo, hi, b, rest);
    }
  }

  lemma AcceptsUnused(f: seq<Blk>, lo: int, hi: int, b: Blk)
    requires Sorted(f, lo, hi) && b.len > 0
    ensures Accepts(f, lo, hi, b) <==> lo <= b.start && b.End() <= hi && Unused(f, b)
  {
    AcceptsIffUsed(f, lo, hi, b);
  }

  lemma FreeableCons(f: seq<Blk>, g: seq<Blk>, lo: int, hi: int, b: Blk, rest: seq<Blk>)
    requires b.len > 0 && lo <= b.start && b.End() <= hi && Unused(f, b)
    requires forall c :: c in rest ==> c.len > 0 && (Unused(g, c) <==> Unused(f, c) && Apart(b, c))
    ensures Freeable(g, lo, hi, rest) <==> Freeable(f, lo, hi, [b] + rest)
  {
    hide Unused;
    var bs := [b] + rest;
    assert forall c :: c in bs <==> c == b || c in rest;
    assert multiset(bs) == multiset{b} + multiset(rest);
    assert b in rest ==> multiset(rest)[b] >= 1;
    if Freeable(g, lo, hi, rest) {
      assert b !in rest;
    }
  }

  /** Whatever the order in which the same blocks are freed, all orders succeed and agree. */
  lemma OrderDoesNotMatter(f: seq<Blk>, lo: int, hi: int, bs: seq<Blk>, cs: seq<Blk>)
    requires Sorted(f, lo, hi) && (forall b :: b in bs ==> b.len > 0) && multiset(bs) == multiset(cs)
    requires FreeAll(f, lo, hi, bs).Some?
    ensures FreeAll(f, lo, hi, bs) == FreeAll(f, lo, hi, cs)
  {
    hide FreeAll, Sorted, Covered, Unused;
    SameMembers(bs, cs);
    FreeAllIff(f, lo, hi, bs);
    FreeAllIff(f, lo, hi, cs);
    FreeAllOk(f, lo, hi, bs);
    FreeAllOk(f, lo, hi, cs);
    forall a ensures Covered(bs, a) <==> Covered(cs, a) {
      SameCovered(bs, cs, a);
    }
    Canonical(FreeAll(f, lo, hi, bs).value, FreeAll(f, lo, hi, cs).value, lo, hi);
  }

  lemma SameMembers(bs: seq<Blk>, cs: seq<Blk>)
    requires multiset(bs) == multiset(cs)
    ensures forall b :: b in bs <==> b in cs
  {
    forall b ensures b in bs <==> b in cs {
      assert b in bs <==> b in multiset(bs);
      assert b in cs <==> b in multiset(cs);
    }
  }

  lemma SameCovered(bs: seq<Blk>, cs: seq<Blk>, a: int)
    requires forall b :: b in bs <==> b in cs
    ensures Covered(bs, a) <==> Covered(cs, a)
  {
    if Covered(bs, a) {
      var i :| 0 <= i < |bs| && bs[i].Has(a);
      assert bs[i] in cs;
    }
    if Covered(cs, a) {
      var i :| 0 <= i < |cs| && cs[i].Has(a);
      assert cs[i] in bs;
    }
  }

  // ---------- the heap and its users ----------

  /** Free and live blocks share out the heap, every byte to exactly one of them. */
  ghost predicate Shared(f: seq<Blk>, live: seq<Blk>, lo: int, hi: int) {
    && Sorted(f, lo, hi)
    && (forall i :: 0 <= i < |live| ==> lo <= live[i].start && live[i].len > 0 && live[i].End() <= hi)
    && (forall i, j :: 0 <= i < j < |live| ==> Apart(live[i], live[j]))
    && (forall a :: lo <= a < hi ==> (Covered(f, a) <==> !Covered(live, a)))
    && Total(f) + Total(live) == hi - lo
  }

  lemma SharedAtStart(lo: int, hi: int)
    requires lo < hi
    ensures Shared([Blk(lo, hi - lo)], [], lo, hi)
  {
    var f := [Blk(lo, hi - lo)];
    TotalOne(f[0]);
    forall a | lo <= a < hi ensures Covered(f, a) {
      assert f[0].Has(a);
    }
  }

  /** An allocation adds a live block that overlaps no other. */
  lemma GetKeepsShared(f: seq<Blk>, live: seq<Blk>, lo: int, hi: int, k: nat, n: int)
    requires Shared(f, live, lo, hi) && k < |f| && 0 < n <= f[k].len
    ensures Shared(Carve(f, k, n), live + [Blk(f[k].start, n)], lo, hi)
  {
    hide Carve, Total;
    var b, g := Blk(f[k].start, n), Carve(f, k, n);
    var live' := live + [b];
    CarveOk(f, k, n, lo, hi);
    TotalCat(live, [b]);
    TotalOne(b);
    forall i | 0 <= i < |live| ensures Apart(live[i], b) {
      LiveApart(f, live, lo, hi, k, n, i);
    }
    forall a | lo <= a < hi ensures Covered(g, a) <==> !Covered(live', a) {
      CarveCovers(f, k, n, lo, hi, a);
      SnocCovered(live, b, a);
      CoveredBy(f, k, n, a);
    }
  }

  lemma LiveApart(f: seq<Blk>, live: seq<Blk>, lo: int, hi: int, k: nat, n: int, i: nat)
    requires Shared(f, live, lo, hi) && k < |f| && 0 < n <= f[k].len && i < |live|
    ensures Apart(live[i], Blk(f[k].start, n))
  {
    var b := Blk(f[k].start, n);
    var a := if live[i].start <= b.start then b.start else live[i].start;
    assert live[i].Has(a) ==> Covered(live, a);
    assert f[k].Has(a) ==> Covered(f, a);
  }

  lemma SnocCovered(live: seq<Blk>, b: Blk, a: int)
    ensures Covered(live + [b], a) <==> Covered(live, a) || b.Has(a)
  {
    var g := live + [b];
    if Covered(live, a) {
      var i :| 0 <= i < |live| && live[i].Has(a);
      assert g[i].Has(a);
    }
    if b.Has(a) {
      assert g[|live|].Has(a);
    }
  }

  /** Any live block can be freed, and the heap stays shared out. */
  lemma FreeKeepsShared(f: seq<Blk>, live: seq<Blk>, lo: int, hi: int, i: nat)
    requires Shared(f, live, lo, hi) && i < |live|
    ensures Accepts(f, lo, hi, live[i])
    ensures Shared(Insert(f, live[i]), live[..i] + live[i + 1..], lo, hi)
  {
    hide Insert, Accepts, Total;
    var b := live[i];
    var live' := live[..i] + live[i + 1..];
    forall a | b.Has(a) ensures !Covered(f, a) {
      assert Covered(live, a);
    }
    AcceptsIffUsed(f, lo, hi, b);
    InsertOk(f, lo, hi, b);
    TotalSplit(live, i);
    TotalCat(live[..i], live[i + 1..]);
    assert forall y :: 0 <= y < |live'| ==> live'[y] == live[if y < i then y else y + 1];
    forall a | lo <= a < hi ensures Covered(Insert(f, b), a) <==> !Covered(live', a) {
      InsertCovers(f, lo, hi, b, a);
      CutCovers(live, i, i + 1, a);
      OneLive(live, i, a);
    }
  }

  lemma OneLive(live: seq<Blk>, i: nat, a: int)
    requires i < |live| && forall x, y :: 0 <= x < y < |live| ==> Apart(live[x], live[y])
    ensures live[i].Has(a) ==> forall x :: 0 <= x < |live| && x != i ==> !live[x].Has(a)
    ensures Covered(live, a) <==> live[i].Has(a) || exists x :: 0 <= x < |live| && (x < i || x >= i + 1) && live[x].Has(a)
  {
    if Covered(live, a) {
      var x :| 0 <= x < |live| && live[x].Has(a);
      assert x == i || x < i || x >= i + 1;
    }
  }

  // ---------- runs of the heap and its users ----------

  /** Take `n` bytes, or give back live block `i`. */
  datatype HeapOp = Get(n: nat) | Give(i: nat)

  datatype HeapState = HeapState(f: seq<Blk>, live: seq<Blk>)

  /** Users give back only what they have. */
  predicate Fair(s: HeapState, op: HeapOp) {
    op.Give? ==> op.i < |s.live|
  }

  function Serve(s: HeapState, op: HeapOp): HeapState
    requires Fair(s, op)
  {
    match op
    case Get(n) =>
      var k := FirstFit(s.f, n, 0);
      if n == 0 || k == |s.f| then s else HeapState(Carve(s.f, k, n), s.live + [Blk(s.f[k].start, n)])
    case Give(i) => HeapState(Insert(s.f, s.live[i]), s.live[..i] + s.live[i + 1..])
  }

  predicate FairRun(s: HeapState, ops: seq<HeapOp>)
    decreases |ops|
  {
    ops == [] || (Fair(s, ops[0]) && FairRun(Serve(s, ops[0]), ops[1..]))
  }

  function ServeAll(s: HeapState, ops: seq<HeapOp>): HeapState
    requires FairRun(s, ops)
    decreases |ops|
  {
    if ops == [] then s else ServeAll(Serve(s, ops[0]), ops[1..])
  }

  lemma ServeShared(s: HeapState, op: HeapOp, lo: int, hi: int)
    requires Shared(s.f, s.live, lo, hi) && Fair(s, op)
    ensures Shared(Serve(s, op).f, Serve(s, op).live, lo, hi)
    ensures op.Give? ==> Accepts(s.f, lo, hi, s.live[op.i])
  {
    hide Shared, Carve, Insert, Accepts;
    match op
    case Get(n) =>
      var k := FirstFit(s.f, n, 0);
      if n > 0 && k < |s.f| {
        GetKeepsShared(s.f, s.live, lo, hi, k, n);
      }
    case Give(i) => FreeKeepsShared(s.f, s.live, lo, hi, i);
  }

  /** From a fresh heap, after every run of takes and gives, free and live blocks share out the heap. */
  lemma AlwaysShared(ops: seq<HeapOp>, lo: int, hi: int)
    requires lo < hi && FairRun(HeapState([Blk(lo, hi - lo)], []), ops)
    ensures var s := ServeAll(HeapState([Blk(lo, hi - lo)], []), ops);
            Shared(s.f, s.live, lo, hi) && Total(s.f) + Total(s.live) == hi - lo
  {
    hide Total;
    SharedAtStart(lo, hi);
    SharedRun(HeapState([Blk(lo, hi - lo)], []), ops, lo, hi);
  }

  lemma {:induction false} SharedRun(s: HeapState, ops: seq<HeapOp>, lo: int, hi: int)
    requires Shared(s.f, s.live, lo, hi) && FairRun(s, ops)
    ensures Shared(ServeAll(s, ops).f, ServeAll(s, ops).live, lo, hi)
    decreases |ops|
  {
    hide Shared, Serve;
    if ops != [] {
      ServeShared(s, ops[0], lo, hi);
      SharedRun(Serve(s, ops[0]), ops[1..], lo, hi);
    }
  }
}
