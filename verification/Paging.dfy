/**
 The demand-paged window: 1024 virtual pages over a pool of 512 frames, mapped on first touch.
 Programs see a flat array of zeros that they can overwrite.
 */
module Paging {
  import opened Common

  const PAGE: int := 0x1000
  const NENT: int := 512
  const TWO_MB: int := 0x200000
  const TWO48: int := 0x1_0000_0000_0000

  const VMD_BASE: int := 0x80000000
  const PAGES: int := 1024
  const VMD_END: int := 0x80400000
  const POOL: int := 512

  // ---------- descriptors ----------

  /** Attribute bits of a normal-memory leaf; the fields occupy disjoint bits. */
  function NormalAttr(ro: bool, xn: bool): int {
    0x4 + 0x300 + 0x400 + 0x40_0000_0000_0000 + (if ro then 0x80 else 0) + (if xn then 0x20_0000_0000_0000 else 0)
  }

  function Leaf(pa: int, ro: bool, xn: bool): int {
    pa + NormalAttr(ro, xn) + 3
  }

  /** What the table walker reads out of a descriptor. */
  predicate Present(d: int) { d % 4 == 3 }
  function OutputOf(d: int): int { d / PAGE % 0x10_0000_0000 * PAGE }
  predicate ReadOnly(d: int) { d / 0x80 % 2 == 1 }
  predicate NoExec(d: int) { d / 0x20_0000_0000_0000 % 2 == 1 }

  /** The low twelve bits of a leaf: valid page, memory type 1, inner shareable, accessed. */
  const VALID_PAGE: int := 0x3
  const ATTR_NORMAL: int := 0x4
  const INNER_SHAREABLE: int := 0x300
  const ACCESSED: int := 0x400

  /**
   A leaf points where it was told to and has exactly the permissions it was given: the low twelve
   bits and the two that forbid execution, of which the one for user mode is always set.
   */
  lemma LeafDecodes(pa: int, ro: bool, xn: bool)
    requires 0 <= pa < TWO48 && pa % PAGE == 0
    ensures Present(Leaf(pa, ro, xn)) && OutputOf(Leaf(pa, ro, xn)) == pa
    ensures ReadOnly(Leaf(pa, ro, xn)) == ro && NoExec(Leaf(pa, ro, xn)) == xn
    ensures Leaf(pa, ro, xn) % 0x1000 == VALID_PAGE + ATTR_NORMAL + INNER_SHAREABLE + ACCESSED + if ro then 0x80 else 0
    ensures Leaf(pa, ro, xn) / 0x20_0000_0000_0000 == if xn then 3 else 2
  {
    var page, high, low := pa / PAGE, if xn then 3 else 2, 0x707 + if ro then 0x80 else 0;
    assert Leaf(pa, ro, xn) == Fields(page, high, low);
    FieldPage(page, high, low);
    FieldHigh(page, high, low);
    FieldLow(page, high, low);
    FieldEnds(page, high, low);
  }

  lemma FieldEnds(page: int, high: int, low: int)
    requires 0 <= page < 0x10_0000_0000 && 2 <= high <= 3 && 0x700 <= low < 0x800
    ensures Fields(page, high, low) % 0x1000 == low && Fields(page, high, low) / 0x20_0000_0000_0000 == high
  {
    assert Fields(page, high, low) == (high * 0x200_0000_0000 + page) * 0x1000 + low;
  }

  /** A descriptor as three groups of bits. */
  function Fields(page: int, high: int, low: int): int {
    high * 0x20_0000_0000_0000 + page * PAGE + low
  }

  lemma FieldPage(page: int, high: int, low: int)
    requires 0 <= page < 0x10_0000_0000 && 2 <= high <= 3 && 0x700 <= low < 0x800
    ensures OutputOf(Fields(page, high, low)) == page * PAGE
  {
    var d := Fields(page, high, low);
    assert d == (high * 0x200_0000_0000 + page) * PAGE + low;
    assert d / PAGE == high * 0x200_0000_0000 + page;
    assert (high * 0x20 * 0x10_0000_0000 + page) % 0x10_0000_0000 == page;
  }

  lemma FieldHigh(page: int, high: int, low: int)
    requires 0 <= page < 0x10_0000_0000 && 2 <= high <= 3 && 0x700 <= low < 0x800
    ensures NoExec(Fields(page, high, low)) <==> high == 3
  {
    assert Fields(page, high, low) / 0x20_0000_0000_0000 == high;
  }

  lemma FieldLow(page: int, high: int, low: int)
    requires 0 <= page < 0x10_0000_0000 && 2 <= high <= 3 && 0x700 <= low < 0x800
    ensures Present(Fields(page, high, low)) <==> low % 4 == 3
    ensures ReadOnly(Fields(page, high, low)) <==> low / 0x80 % 2 == 1
  {
    var q := high * 0x2000_0000_0000 + page * 0x10;
    assert Fields(page, high, low) == 0x100 * q + low;
    LowBits(q, low);
  }

  lemma LowBits(q: int, low: int)
    requires 0 <= q && 0 <= low
    ensures (0x100 * q + low) % 4 == low % 4 && (0x100 * q + low) / 0x80 % 2 == low / 0x80 % 2
  {
    LowTwo(0x40 * q, low);
    HighPart(q, low);
    EvenPlus(q, low / 0x80);
  }

  lemma LowTwo(r: int, low: int)
    ensures (4 * r + low) % 4 == low % 4
  {
  }

  lemma HighPart(q: int, low: int)
    ensures (0x100 * q + low) / 0x80 == 2 * q + low / 0x80
  {
  }

  lemma EvenPlus(q: int, d: int)
    ensures (2 * q + d) % 2 == d % 2
  {
  }

  predicate InWindow(va: int) {
    VMD_BASE <= va < VMD_END
  }

  function PageOf(va: int): int {
    (va - VMD_BASE) / PAGE
  }

  // ---------- the flat memory programs see ----------

  datatype Op = Load(va: int) | Store(va: int, b: Byte)

  function Flat(m: map<int, Byte>, va: int): Byte {
    if va in m then m[va] else 0
  }

  /** The bytes the loads of `ops` return on flat zero-filled memory, and the memory afterwards. */
  function FlatRun(m: map<int, Byte>, ops: seq<Op>): (seq<Byte>, map<int, Byte>)
    decreases |ops|
  {
    if ops == [] then ([], m)
    else
      var (out, m1) := FlatRun(m, ops[..|ops| - 1]);
      match ops[|ops| - 1]
      case Load(va) => (out + [Flat(m1, va)], m1)
      case Store(va, b) => (out, m1[va := b])
  }

  function PagesOf(ops: seq<Op>): set<int> {
    set i | 0 <= i < |ops| :: PageOf(ops[i].va)
  }

  /** Mapped pages have frames of their own, the first `next` of the pool. */
  ghost predicate FramesOk(frame: map<int, int>, next: int) {
    && 0 <= next <= POOL && |frame| == next
    && (forall p :: p in frame ==> 0 <= p < PAGES && 0 <= frame[p] < next)
    && (forall p, r :: p in frame && r in frame && p != r ==> frame[p] != frame[r])
  }

  /** The leaf table maps exactly the pages of `frame`. */
  ghost predicate TableSays(l3: seq<int>, frame: map<int, int>, pool: int) {
    |l3| == PAGES && forall p :: 0 <= p < PAGES ==> l3[p] == Entry(frame, pool, p)
  }

  function Entry(frame: map<int, int>, pool: int, p: int): int {
    if p in frame then Leaf(pool + frame[p] * PAGE, false, true) else 0
  }

  lemma EntryPresent(frame: map<int, int>, pool: int, p: int)
    requires 0 <= pool && pool + POOL * PAGE <= TWO48 && pool % PAGE == 0 && (p in frame ==> 0 <= frame[p] < POOL)
    ensures p in frame <==> Entry(frame, pool, p) % 2 == 1
    ensures p in frame ==> Present(Entry(frame, pool, p)) && OutputOf(Entry(frame, pool, p)) == pool + frame[p] * PAGE
  {
    hide Leaf, OutputOf, Present;
    if p in frame {
      FrameAligned(pool, frame[p]);
      LeafDecodes(pool + frame[p] * PAGE, false, true);
      PresentIsOdd(Entry(frame, pool, p));
    }
  }

  lemma PresentIsOdd(d: int)
    requires Present(d)
    ensures d % 2 == 1
  {
    OddForm(2 * (d / 4) + 1);
    assert d == 2 * (2 * (d / 4) + 1) + 1;
  }

  lemma OddForm(h: int)
    ensures (2 * h + 1) % 2 == 1
  {
  }

  lemma FramesIn(frame: map<int, int>, next: int)
    requires FramesOk(frame, next)
    ensures forall p :: p in frame ==> 0 <= frame[p] < POOL
  {
  }

  lemma FramesMore(frame: map<int, int>, next: int, p: int)
    requires FramesOk(frame, next) && next < POOL && 0 <= p < PAGES && p !in frame
    ensures FramesOk(frame[p := next], next + 1)
  {
    assert frame[p := next].Keys == frame.Keys + {p};
    assert |frame| == |frame.Keys| && |frame[p := next]| == |frame[p := next].Keys|;
  }

  lemma TableMore(l3: seq<int>, frame: map<int, int>, pool: int, p: int, fr: int)
    requires TableSays(l3, frame, pool) && 0 <= p < PAGES
    ensures TableSays(l3[p := Leaf(pool + fr * PAGE, false, true)], frame[p := fr], pool)
  {
    hide Leaf;
    var t := l3[p := Leaf(pool + fr * PAGE, false, true)];
    forall q | 0 <= q < PAGES ensures t[q] == Entry(frame[p := fr], pool, q) {
      assert l3[q] == Entry(frame, pool, q);
    }
  }

  /** The byte at `va`: in its frame if the page is mapped, else 0. */
  ghost function See(frame: map<int, int>, ram: seq<Byte>, va: int): Byte
    requires |ram| == POOL * PAGE && forall p :: p in frame ==> 0 <= frame[p] < POOL
  {
    var p := PageOf(va);
    if p in frame then
      FrameBound(frame[p], va % PAGE);
      ram[frame[p] * PAGE + va % PAGE]
    else 0
  }

  /** Mapping a page to a zeroed frame nobody has changes nothing anyone sees. */
  lemma FreshFrameUnseen(frame: map<int, int>, ram: seq<Byte>, ram': seq<Byte>, p: int, fr: int, va: int)
    requires |ram| == |ram'| == POOL * PAGE && 0 <= fr < POOL && p !in frame
    requires forall r :: r in frame ==> 0 <= frame[r] < POOL && frame[r] != fr
    requires forall i :: 0 <= i < |ram| ==> ram'[i] == if fr * PAGE <= i < (fr + 1) * PAGE then 0 else ram[i]
    ensures See(frame[p := fr], ram', va) == See(frame, ram, va)
  {
    var q := PageOf(va);
    if q == p {
      FrameBound(fr, va % PAGE);
    } else if q in frame {
      FrameBound(frame[q], va % PAGE);
      FramesApart(frame[q], fr, va % PAGE);
    }
  }

  lemma FramesApart(a: int, b: int, off: int)
    requires a != b && 0 <= off < PAGE
    ensures !(b * PAGE <= a * PAGE + off < (b + 1) * PAGE)
  {
  }

  class DemandPager {
    /** Leaf descriptors of the window, both L3 tables in a row; 0 is invalid. */
    const l3: array<int>
    /** The frame pool, and where it lies in physical memory. */
    const ram: array<Byte>
    const pool: int
    var next: int
    var faults: nat
    var oom: nat

    /** Which frame each mapped page has. */
    ghost var frame: map<int, int>

    ghost predicate Valid()
      reads this, l3
    {
      && l3.Length == PAGES && ram.Length == POOL * PAGE
      && 0 <= pool && pool + POOL * PAGE <= TWO48 && pool % PAGE == 0
      && FramesOk(frame, next) && TableSays(l3[..], frame, pool)
    }

    /** Every leaf invalid; the pool holds whatever it held. */
    constructor (pool: int)
      requires 0 <= pool && pool + POOL * PAGE <= TWO48 && pool % PAGE == 0
      ensures Valid() && fresh(l3) && fresh(ram) && frame == map[] && next == 0
    {
      l3 := new int[PAGES](_ => 0);
      ram := new Byte[POOL * PAGE];
      this.pool := pool;
      next, faults, oom := 0, 0, 0;
      frame := map[];
    }

    /** The byte a program sees at `va`. */
    ghost function Sees(va: int): Byte
      reads this, l3, ram
      requires Valid() && InWindow(va)
    {
      See(frame, ram[..], va)
    }

    /** The hardware's table walk over the window: physical address, or a translation fault. */
    function Walk(va: int): (r: Option<int>)
      reads this, l3
      requires l3.Length == PAGES && InWindow(va)
    {
      var off := va - VMD_BASE;
      var d := l3[off / TWO_MB * NENT + off / PAGE % NENT];
      if Present(d) then Some(OutputOf(d) + va % PAGE) else None
    }

    /** The walk follows `frame`. */
    lemma WalkIs(va: int)
      requires Valid() && InWindow(va)
      ensures Walk(va) == if PageOf(va) in frame then Some(pool + frame[PageOf(va)] * PAGE + va % PAGE) else None
    {
      hide Leaf;
      IndexIs(va);
      EntryPresent(frame, pool, PageOf(va));
      assert l3[..][PageOf(va)] == Entry(frame, pool, PageOf(va));
    }

    /** Map the page of `va` to the next frame, zeroed; refused outside the window or without frames. */
    method Fault(va: int) returns (r: int)
      requires Valid()
      modifies this, l3, ram
      ensures Valid()
      ensures r == 1 <==> InWindow(va) && (PageOf(va) in old(frame) || old(next) < POOL)
      ensures (r == 0 || r == 1) && (r == 1 ==> PageOf(va) in frame)
      ensures frame == if r == 1 && PageOf(va) !in old(frame) then old(frame)[PageOf(va) := old(next)] else old(frame)
      ensures forall x :: InWindow(x) ==> Sees(x) == old(Sees(x))
    {
      hide Leaf, Entry, See;
      if !InWindow(va) {
        return 0;
      }
      var off := va - VMD_BASE;
      IndexIs(va);
      var p := off / TWO_MB * NENT + off / PAGE % NENT;
      EntryPresent(frame, pool, p);
      assert l3[..][p] == Entry(frame, pool, p);
      if l3[p] % 2 == 1 {
        return 1;
      }
      if next >= POOL {
        oom := oom + 1;
        return 0;
      }
      ghost var was, frame0, fr := ram[..], frame, next;
      ZeroFrame(next);
      MapPage(p);
      forall x | InWindow(x) ensures See(frame, ram[..], x) == See(frame0, was, x) {
        FreshFrameUnseen(frame0, was, ram[..], p, fr, x);
      }
      faults := faults + 1;
      return 1;
    }

    method MapPage(p: int)
      requires Valid() && 0 <= p < PAGES && p !in frame && next < POOL
      modifies this`next, this`frame, l3
      ensures Valid() && frame == old(frame)[p := old(next)] && next == old(next) + 1
    {
      hide Leaf, FramesOk, TableSays;
      FramesMore(frame, next, p);
      ghost var t := l3[..];
      TableMore(t, frame, pool, p, next);
      l3[p] := Leaf(pool + next * PAGE, false, true);
      assert l3[..] == t[p := Leaf(pool + next * PAGE, false, true)];
      frame := frame[p := next];
      next := next + 1;
    }

    /** Where a byte of the pool lies. */
    lemma ByteAt(va: int)
      requires Valid() && InWindow(va) && PageOf(va) in frame
      ensures Walk(va) == Some(pool + frame[PageOf(va)] * PAGE + va % PAGE)
      ensures 0 <= frame[PageOf(va)] * PAGE + va % PAGE < ram.Length
      ensures Sees(va) == ram[frame[PageOf(va)] * PAGE + va % PAGE]
    {
      WalkIs(va);
      FrameBound(frame[PageOf(va)], va % PAGE);
    }

    /** A load instruction: walk, fault and retry if need be. `None` is an abort. */
    method LoadByte(va: int) returns (r: Option<Byte>)
      requires Valid() && InWindow(va)
      modifies this, l3, ram
      ensures Valid() && (r.Some? <==> PageOf(va) in old(frame) || old(next) < POOL)
      ensures r.Some? ==> r.value == old(Sees(va))
      ensures frame == if r.Some? && PageOf(va) !in old(frame) then old(frame)[PageOf(va) := old(next)] else old(frame)
      ensures forall x :: InWindow(x) ==> Sees(x) == old(Sees(x))
    {
      hide Leaf, Entry, See, FramesOk, TableSays;
      WalkIs(va);
      var pa := Walk(va);
      if pa.None? {
        var ok := Fault(va);
        if ok == 0 {
          return None;
        }
        WalkIs(va);
        pa := Walk(va);
      }
      ByteAt(va);
      return Some(ram[pa.value - pool]);
    }

    method StoreByte(va: int, b: Byte) returns (done: bool)
      requires Valid() && InWindow(va)
      modifies this, l3, ram
      ensures Valid() && (done <==> PageOf(va) in old(frame) || old(next) < POOL)
      ensures frame == if done && PageOf(va) !in old(frame) then old(frame)[PageOf(va) := old(next)] else old(frame)
      ensures forall x :: InWindow(x) ==> Sees(x) == if done && x == va then b else old(Sees(x))
    {
      hide Leaf, Entry, See, FramesOk, TableSays;
      WalkIs(va);
      var pa := Walk(va);
      if pa.None? {
        var ok := Fault(va);
        if ok == 0 {
          return false;
        }
        WalkIs(va);
        pa := Walk(va);
      }
      ByteAt(va);
      ghost var was := ram[..];
      ram[pa.value - pool] := b;
      assert ram[..] == was[pa.value - pool := b];
      FramesIn(frame, next);
      forall x | InWindow(x) ensures See(frame, ram[..], x) == if x == va then b else See(frame, was, x) {
        WriteSeen(frame, next, was, va, b, x);
      }
      return true;
    }

    /** One load or store against flat memory `m`; there is a frame left if it needs one. */
    method Access(op: Op, ghost m: map<int, Byte>) returns (r: seq<Byte>)
      requires Valid() && InWindow(op.va) && (PageOf(op.va) in frame || next < POOL)
      requires forall x :: InWindow(x) ==> Sees(x) == Flat(m, x)
      modifies this, l3, ram
      ensures Valid() && frame.Keys == old(frame).Keys + {PageOf(op.va)}
      ensures r == if op.Load? then [Flat(m, op.va)] else []
      ensures forall x :: InWindow(x) ==> Sees(x) == Flat(if op.Load? then m else m[op.va := op.b], x)
    {
      hide Leaf, Entry, See, TableSays, PageOf, FramesOk;
      match op {
        case Load(va) =>
          var b := LoadByte(va);
          return [b.value];
        case Store(va, b) =>
          var done := StoreByte(va, b);
          return [];
      }
    }

    /**
     Any series of loads and stores that touches at most 512 pages returns what flat memory
     full of zeros would have returned.
     */
    method Replay(ops: seq<Op>) returns (out: seq<Byte>)
      requires Valid() && frame == map[] && |PagesOf(ops)| <= POOL
      requires forall i :: 0 <= i < |ops| ==> InWindow(ops[i].va)
      modifies this, l3, ram
      ensures Valid() && out == FlatRun(map[], ops).0
      ensures forall x :: InWindow(x) ==> Sees(x) == Flat(FlatRun(map[], ops).1, x)
    {
      hide Leaf, Entry, See, TableSays, PageOf, FramesOk, FlatRun, PagesOf, Flat;
      out := [];
      Untouched();
      FlatNone(map[], ops);
      var i := 0;
      while i < |ops|
        invariant 0 <= i <= |ops| && Valid()
        invariant frame.Keys <= PagesOf(ops)
        invariant out == FlatRun(map[], ops[..i]).0
        invariant forall x :: InWindow(x) ==> Sees(x) == Flat(FlatRun(map[], ops[..i]).1, x)
      {
        RoomLeft(frame, next, ops, i);
        FlatSnoc(map[], ops, i);
        var r := Access(ops[i], FlatRun(map[], ops[..i]).1);
        out := out + r;
        i := i + 1;
      }
      assert ops[..|ops|] == ops;
    }

    lemma Untouched()
      requires Valid() && frame == map[]
      ensures forall x :: InWindow(x) ==> Sees(x) == 0
    {
    }

    method ZeroFrame(fr: int)
      requires ram.Length == POOL * PAGE && 0 <= fr < POOL
      modifies ram
      ensures forall i :: 0 <= i < ram.Length ==> ram[i] == if fr * PAGE <= i < (fr + 1) * PAGE then 0 else old(ram[i])
    {
      var i := 0;
      while i < PAGE
        invariant 0 <= i <= PAGE
        invariant forall j :: 0 <= j < ram.Length ==> ram[j] == if fr * PAGE <= j < fr * PAGE + i then 0 else old(ram[j])
      {
        ram[fr * PAGE + i] := 0;
        i := i + 1;
      }
    }
  }

  lemma WriteSeen(frame: map<int, int>, next: int, ram: seq<Byte>, va: int, b: Byte, x: int)
    requires FramesOk(frame, next) && |ram| == POOL * PAGE && InWindow(va) && InWindow(x) && PageOf(va) in frame
    ensures 0 <= frame[PageOf(va)] * PAGE + va % PAGE < |ram|
    ensures See(frame, ram[frame[PageOf(va)] * PAGE + va % PAGE := b], x) == if x == va then b else See(frame, ram, x)
  {
    var p, q := PageOf(va), PageOf(x);
    FrameBound(frame[p], va % PAGE);
    if q in frame {
      FrameBound(frame[q], x % PAGE);
      if p == q {
        SamePage(va, x);
      } else {
        FramesApart(frame[q], frame[p], x % PAGE);
      }
    }
  }

  lemma SamePage(va: int, x: int)
    requires InWindow(va) && InWindow(x) && PageOf(va) == PageOf(x)
    ensures va % PAGE == x % PAGE <==> va == x
  {
  }

  /** A page still to be touched finds a frame. */
  lemma RoomLeft(frame: map<int, int>, next: int, ops: seq<Op>, i: nat)
    requires FramesOk(frame, next) && i < |ops| && frame.Keys <= PagesOf(ops) && |PagesOf(ops)| <= POOL
    ensures PageOf(ops[i].va) in PagesOf(ops) && (PageOf(ops[i].va) in frame || next < POOL)
  {
    hide PageOf;
    var pages, p := PagesOf(ops), PageOf(ops[i].va);
    if p !in frame {
      assert |frame| == |frame.Keys|;
      assert frame.Keys <= pages - {p};
      Smaller(frame.Keys, pages - {p});
    }
  }

  lemma FlatNone(m: map<int, Byte>, ops: seq<Op>)
    ensures FlatRun(m, ops[..0]) == ([], m) && forall x :: Flat(map[], x) == 0
  {
  }

  lemma FlatSnoc(m: map<int, Byte>, ops: seq<Op>, i: nat)
    requires i < |ops|
    ensures var (out, m1) := FlatRun(m, ops[..i]);
            FlatRun(m, ops[..i + 1]) ==
              if ops[i].Load? then (out + [Flat(m1, ops[i].va)], m1) else (out + [], m1[ops[i].va := ops[i].b])
  {
    hide Flat;
    assert ops[..i + 1][..i] == ops[..i];
    assert FlatRun(m, ops[..i]).0 + [] == FlatRun(m, ops[..i]).0;
  }

  lemma {:induction false} Smaller<T>(a: set<T>, b: set<T>)
    requires a <= b
    ensures |a| <= |b|
    decreases |a|
  {
    if a != {} {
      var x :| x in a;
      Smaller(a - {x}, b - {x});
    }
  }

  lemma FrameBound(fr: int, off: int)
    requires 0 <= fr < POOL && 0 <= off < PAGE
    ensures 0 <= fr * PAGE + off < POOL * PAGE
  {
  }

  lemma FrameAligned(pool: int, fr: int)
    requires 0 <= pool && pool + POOL * PAGE <= TWO48 && pool % PAGE == 0 && 0 <= fr < POOL
    ensures 0 <= pool + fr * PAGE < TWO48 && (pool + fr * PAGE) % PAGE == 0
  {
  }

  /** Going through the second-level index and the third-level index reaches the page's entry. */
  lemma IndexIs(va: int)
    requires InWindow(va)
    ensures var off := va - VMD_BASE;
            off / TWO_MB * NENT + off / PAGE % NENT == PageOf(va) && 0 <= PageOf(va) < PAGES
  {
  }
}
