/**
 The scheduler over the heap's memory, headers included: where all sizes are multiples of 16, a
 word of a process's stack changes only when somebody writes it.
 */
module StackMemory {
  import opened Common
  import opened ReadyList
  import opened FreeList
  import opened StackHeap
  import H = Heap

  /** A kernel with its memory and the head of the free list in it. */
  datatype Memory = Memory(k: Kernel, mem: map<int, int>, first: int)

  ghost predicate HeadersOk(f: seq<Blk>, mem: map<int, int>, first: int, lo: int, hi: int) {
    H.Wordly(f, lo, hi) && H.Sixteens(f) && H.Chained(mem, first, f)
  }

  ghost predicate LiveOk(live: map<int, int>) {
    forall a :: a in live ==> a % 8 == 0 && live[a] % 16 == 0
  }

  ghost predicate MemoryOk(r: Memory, lo: int, hi: int) {
    JointOk(r.k, lo, hi) && HeadersOk(r.k.f, r.mem, r.first, lo, hi) && LiveOk(r.k.live)
  }

  // ---------- what taking and giving back write ----------

  /** Giving back the block at `a`. */
  function Given(r: Memory, a: int): Memory
    requires a in r.k.live
  {
    var b := Blk(a, r.k.live[a]);
    var i := InsertAt(r.k.f, a, 0);
    Memory(r.k.(f := Insert(r.k.f, b), live := r.k.live - {a}),
      H.Freed(r.mem, H.PrevOf(r.k.f, i), H.AddrOf(r.k.f, i), a, b.len), if i == 0 then a else r.first)
  }

  /** Taking `n` bytes. */
  function Got(r: Memory, n: int): Memory {
    var j := FirstFit(r.k.f, n, 0);
    if n == 0 || j == |r.k.f| then r
    else
      Memory(Grant(r.k, n), H.Taken(r.mem, H.PrevOf(r.k.f, j), r.k.f[j].start, n),
        if j == 0 then H.AddrOf(Carve(r.k.f, j, n), 0) else r.first)
  }

  /** Blocks handed out, but for those at `gone`, stay so and none of their words is written. */
  ghost predicate Untouched(r: Memory, r': Memory, gone: set<int>) {
    forall a :: a in r.k.live && a !in gone ==>
      a in r'.k.live && r'.k.live[a] == r.k.live[a] && SameWords(r.mem, r'.mem, a, r.k.live[a])
  }

  ghost predicate SameWords(mem: map<int, int>, m: map<int, int>, a: int, n: int) {
    forall x :: a <= x < a + n ==> H.W(m, x) == H.W(mem, x)
  }

  /** Words that are not free are the same. */
  ghost predicate SameUsed(f: seq<Blk>, mem: map<int, int>, m: map<int, int>) {
    forall x :: !Covered(f, x) ==> H.W(m, x) == H.W(mem, x)
  }

  lemma UsedWords(f: seq<Blk>, mem: map<int, int>, m: map<int, int>, a: int, n: int)
    requires SameUsed(f, mem, m) && Unused(f, Blk(a, n))
    ensures SameWords(mem, m, a, n)
  {
    hide Covered, H.W;
    forall x | a <= x < a + n ensures H.W(m, x) == H.W(mem, x) {
      assert Blk(a, n).Has(x);
    }
  }

  lemma FreedHeaders(f: seq<Blk>, mem: map<int, int>, first: int, lo: int, hi: int, b: Blk)
    requires HeadersOk(f, mem, first, lo, hi) && b.len > 0 && b.start % 8 == 0 && b.len % 16 == 0 && Accepts(f, lo, hi, b)
    ensures var i := InsertAt(f, b.start, 0);
            var m := H.Freed(mem, H.PrevOf(f, i), H.AddrOf(f, i), b.start, b.len);
            HeadersOk(Insert(f, b), m, if i == 0 then b.start else first, lo, hi) && SameUsed(Insert(f, b), mem, m)
  {
    hide H.Wordly, H.Chained, H.Freed, H.Sixteens, H.Squeezed, Insert, Accepts, InsertAt, Covered, Merged, H.W;
    WholeWords(b.len);
    H.InsertWords(f, lo, hi, b);
    H.PutSixteens(f, b);
    H.PutChained(mem, first, f, b, lo, hi);
    H.PutFrame(mem, first, f, b, lo, hi);
  }

  lemma TakenHeaders(f: seq<Blk>, mem: map<int, int>, first: int, lo: int, hi: int, j: nat, n: nat)
    requires HeadersOk(f, mem, first, lo, hi) && j < |f| && n <= f[j].len && n % 16 == 0
    ensures HeadersOk(Carve(f, j, n), H.Taken(mem, H.PrevOf(f, j), f[j].start, n), if j == 0 then H.AddrOf(Carve(f, j, n), 0) else first, lo, hi)
    ensures SameUsed(f, mem, H.Taken(mem, H.PrevOf(f, j), f[j].start, n)) && f[j].start % 8 == 0
  {
    hide H.Chained, H.Taken, Carve, Covered, Sorted, H.W, Total, H.Sixteens, H.Wordly;
    WholeWords(n);
    H.TakenIs(mem, first, f, j, n, lo, hi);
    H.TakeSixteens(f, j, n);
    StartsAtWord(f, lo, hi, j);
  }

  lemma WholeWords(n: int)
    requires n % 16 == 0
    ensures n % 8 == 0 && n != 8
  {
    var q := n / 16;
    assert n == 8 * (2 * q);
  }

  lemma StartsAtWord(f: seq<Blk>, lo: int, hi: int, j: nat)
    requires H.Wordly(f, lo, hi) && j < |f|
    ensures f[j].start % 8 == 0
  {
  }

  lemma GivenOk(r: Memory, lo: int, hi: int, a: int)
    requires HeapOk(r.k.f, r.k.live, lo, hi) && HeadersOk(r.k.f, r.mem, r.first, lo, hi) && LiveOk(r.k.live) && a in r.k.live
    ensures var r' := Given(r, a);
            && HeapOk(r'.k.f, r'.k.live, lo, hi) && HeadersOk(r'.k.f, r'.mem, r'.first, lo, hi) && LiveOk(r'.k.live)
            && Untouched(r, r', {a})
  {
    hide HeadersOk, H.Freed, Insert, Accepts, Sorted, Unused, InsertAt, SameUsed, SameWords, Apart;
    var b, r' := Blk(a, r.k.live[a]), Given(r, a);
    GiveOk(r.k.f, r.k.live, lo, hi, a);
    FreedHeaders(r.k.f, r.mem, r.first, lo, hi, b);
    forall c | c in r.k.live && c != a ensures SameWords(r.mem, r'.mem, c, r.k.live[c]) {
      assert c in r'.k.live;
      UsedWords(r'.k.f, r.mem, r'.mem, c, r.k.live[c]);
    }
  }

  lemma GotOk(r: Memory, lo: int, hi: int, n: nat)
    requires HeapOk(r.k.f, r.k.live, lo, hi) && HeadersOk(r.k.f, r.mem, r.first, lo, hi) && LiveOk(r.k.live) && n % 16 == 0
    ensures var r' := Got(r, n);
            && HeapOk(r'.k.f, r'.k.live, lo, hi) && HeadersOk(r'.k.f, r'.mem, r'.first, lo, hi) && LiveOk(r'.k.live)
            && Untouched(r, r', {}) && r'.k == Grant(r.k, n)
  {
    hide HeadersOk, H.Taken, Carve, Sorted, Unused, SameUsed, SameWords, Apart;
    var r' := Got(r, n);
    var j := FirstFit(r.k.f, n, 0);
    if n > 0 && j < |r.k.f| {
      TakeOk(r.k.f, r.k.live, lo, hi, j, n);
      TakenHeaders(r.k.f, r.mem, r.first, lo, hi, j, n);
      forall c | c in r.k.live ensures SameWords(r.mem, r'.mem, c, r.k.live[c]) {
        UsedWords(r.k.f, r.mem, r'.mem, c, r.k.live[c]);
      }
    } else {
      forall c | c in r.k.live ensures SameWords(r.mem, r'.mem, c, r.k.live[c]) {
        Unchanged(r.mem, c, r.k.live[c]);
      }
    }
  }

  lemma Unchanged(mem: map<int, int>, a: int, n: int)
    ensures SameWords(mem, mem, a, n)
  {
  }

  // ---------- steps ----------

  /** A step of the kernel, or a write by whoever uses a block. */
  datatype Deed = Acts(x: Act) | Writes(a: int, v: int)

  /** All sizes asked for are multiples of 16, as rounded; writes go to words of blocks handed out. */
  ghost predicate Allowed(r: Memory, d: Deed) {
    match d
    case Acts(x) =>
      Possible(r.k, x) && (x.Spawns? ==> StackSize(x.want) % 16 == 0) && (x.Allocs? ==> Round(x.n) % 16 == 0)
    case Writes(a, _) => a % 8 == 0 && exists c :: c in r.k.live && c <= a < c + r.k.live[c]
  }

  /** The heap after slot `p` gave its stack back, if it had one. */
  function Emptied(r: Memory, p: nat): Memory
    requires p < |r.k.s.stack| && (r.k.s.stack[p] != 0 ==> r.k.s.stack[p] in r.k.live)
  {
    if r.k.s.stack[p] == 0 then r else Given(r, r.k.s.stack[p])
  }

  ghost function Next(r: Memory, d: Deed, lo: int, hi: int): Memory
    requires MemoryOk(r, lo, hi) && Allowed(r, d)
  {
    match d
    case Writes(a, v) => r.(mem := r.mem[a := v])
    case Acts(x) =>
      JointSize(r.k, lo, hi);
      var k := Step(r.k, x, lo, hi);
      match x
      case Spawns(want) =>
        var p := FreeSlot(r.k.s.st, 1);
        if p == NPROC then r else Got(Emptied(r, p), StackSize(want)).(k := k)
      case Reaps(p) =>
        if p <= 0 || p >= NPROC || p == r.k.s.curr || r.k.s.st[p] == Free then r else Emptied(r, p).(k := k)
      case Allocs(n) => Got(r, Round(n)).(k := k)
      case Releases(a) => Given(r, a).(k := k)
      case Runs(_) => r.(k := k)
  }

  /** Where the blocks start that a deed gives back. */
  ghost function Returned(r: Memory, d: Deed, lo: int, hi: int): set<int>
    requires MemoryOk(r, lo, hi) && Allowed(r, d)
  {
    JointSize(r.k, lo, hi);
    if d.Writes? then {} else set b | b in GivenBack(r.k, d.x) :: b.start
  }

  lemma EmptiedOk(r: Memory, lo: int, hi: int, p: nat)
    requires MemoryOk(r, lo, hi) && p < NPROC
    ensures p < |r.k.s.stack| && p < |r.k.len| && (r.k.s.stack[p] != 0 ==> r.k.s.stack[p] in r.k.live)
    ensures var r' := Emptied(r, p);
            && HeapOk(r'.k.f, r'.k.live, lo, hi) && HeadersOk(r'.k.f, r'.mem, r'.first, lo, hi) && LiveOk(r'.k.live)
            && Untouched(r, r', {r.k.s.stack[p]})
            && r'.k.f == Unstack(r.k, p).f && r'.k.live == Unstack(r.k, p).live
  {
    hide HeapOk, HeadersOk, LiveOk, SchedOk, Insert, SameWords, Untouched;
    if r.k.s.stack[p] != 0 {
      GivenOk(r, lo, hi, r.k.s.stack[p]);
    } else {
      Still(r, r, {0});
    }
  }

  lemma Still(r: Memory, r': Memory, gone: set<int>)
    requires r'.mem == r.mem && r'.k.live == r.k.live
    ensures Untouched(r, r', gone)
  {
    hide SameWords;
    forall a | a in r.k.live ensures SameWords(r.mem, r.mem, a, r.k.live[a]) {
      Unchanged(r.mem, a, r.k.live[a]);
    }
  }

  lemma UntouchedThen(r: Memory, r1: Memory, r2: Memory, gone: set<int>)
    requires Untouched(r, r1, gone) && Untouched(r1, r2, {})
    ensures Untouched(r, r2, gone)
  {
    forall a | a in r.k.live && a !in gone ensures SameWords(r.mem, r2.mem, a, r.k.live[a]) {
      assert SameWords(r.mem, r1.mem, a, r.k.live[a]) && SameWords(r1.mem, r2.mem, a, r1.k.live[a]);
    }
  }

  /** A deed keeps the headers in order, and writes no word of a block that stays handed out but the one it is for. */
  lemma NextOk(r: Memory, d: Deed, lo: int, hi: int)
    requires MemoryOk(r, lo, hi) && Allowed(r, d)
    ensures MemoryOk(Next(r, d, lo, hi), lo, hi)
    ensures d.Acts? ==> Next(r, d, lo, hi).k == Step(r.k, d.x, lo, hi) && Untouched(r, Next(r, d, lo, hi), Returned(r, d, lo, hi))
    ensures d.Writes? ==> Next(r, d, lo, hi).k == r.k && Returned(r, d, lo, hi) == {}
  {
    hide HeapOk, HeadersOk, LiveOk, SchedOk, Untouched, Step, Given, Got, Emptied, Unstack, Grant, FreeSlot;
    match d
    case Writes(a, v) => WriteOk(r, a, v, lo, hi);
    case Acts(x) =>
      StepOk(r.k, x, lo, hi);
      match x
      case Spawns(want) => SpawnMemory(r, want, lo, hi);
      case Reaps(p) => ReapMemory(r, p, lo, hi);
      case Allocs(n) => AllocMemory(r, n, lo, hi);
      case Releases(a) => ReleaseMemory(r, a, lo, hi);
      case Runs(op) => RunMemory(r, op, lo, hi);
  }

  lemma WriteOk(r: Memory, a: int, v: int, lo: int, hi: int)
    requires MemoryOk(r, lo, hi) && Allowed(r, Writes(a, v))
    ensures MemoryOk(r.(mem := r.mem[a := v]), lo, hi)
  {
    hide SchedOk, LiveOk, H.Chained, H.Wordly, Sorted, Covered;
    var c :| c in r.k.live && c <= a < c + r.k.live[c];
    assert Blk(c, r.k.live[c]).Has(a);
    assert !Covered(r.k.f, a);
    var m := r.mem[a := v];
    assert H.SameFree(r.k.f, r.mem, m);
    H.BlocksAre(r.k.f, lo, hi);
    H.LongChained(r.mem, r.first, r.k.f, m);
  }

  lemma SpawnMemory(r: Memory, want: nat, lo: int, hi: int)
    requires MemoryOk(r, lo, hi) && Allowed(r, Acts(Spawns(want)))
    ensures var r' := Next(r, Acts(Spawns(want)), lo, hi);
            && HeadersOk(r'.k.f, r'.mem, r'.first, lo, hi) && LiveOk(r'.k.live) && r'.k == Step(r.k, Spawns(want), lo, hi)
            && Untouched(r, r', Returned(r, Acts(Spawns(want)), lo, hi))
  {
    hide HeapOk, HeadersOk, LiveOk, SchedOk, Untouched, Given, Got, Emptied, Unstack, Grant, Granted, StackSize, Create;
    JointSize(r.k, lo, hi);
    var p := FreeSlot(r.k.s.st, 1);
    if p == NPROC {
      Still(r, r, Returned(r, Acts(Spawns(want)), lo, hi));
    } else {
      EmptiedOk(r, lo, hi, p);
      var r1, n := Emptied(r, p), StackSize(want);
      GotOk(r1, lo, hi, n);
      UntouchedThen(r, r1, Got(r1, n), {r.k.s.stack[p]});
      SameHeap(r1.k, Unstack(r.k, p), n);
      assert r.k.s.stack[p] != 0 ==> Blk(r.k.s.stack[p], r.k.len[p]) in GivenBack(r.k, Spawns(want));
      MoreGone(r, Next(r, Acts(Spawns(want)), lo, hi), Got(r1, n), r.k.s.stack[p], Returned(r, Acts(Spawns(want)), lo, hi), lo, hi);
    }
  }

  /** What is taken depends on the list alone. */
  lemma SameHeap(k: Kernel, k': Kernel, n: int)
    requires k.f == k'.f && k.live == k'.live
    ensures Grant(k, n).f == Grant(k', n).f && Grant(k, n).live == Grant(k', n).live
  {
    hide Carve;
  }

  lemma MoreGone(r: Memory, r': Memory, m: Memory, a: int, gone: set<int>, lo: int, hi: int)
    requires HeapOk(r.k.f, r.k.live, lo, hi) && Untouched(r, m, {a}) && r'.mem == m.mem && r'.k.live == m.k.live
    requires a == 0 || a in gone
    ensures Untouched(r, r', gone)
  {
  }

  lemma ReapMemory(r: Memory, p: int, lo: int, hi: int)
    requires MemoryOk(r, lo, hi) && Allowed(r, Acts(Reaps(p)))
    ensures var r' := Next(r, Acts(Reaps(p)), lo, hi);
            && HeadersOk(r'.k.f, r'.mem, r'.first, lo, hi) && LiveOk(r'.k.live) && r'.k == Step(r.k, Reaps(p), lo, hi)
            && Untouched(r, r', Returned(r, Acts(Reaps(p)), lo, hi))
  {
    hide HeapOk, HeadersOk, LiveOk, SchedOk, Untouched, Given, Emptied, Unstack, Kill;
    JointSize(r.k, lo, hi);
    ReapOk(r.k, lo, hi, p);
    if p <= 0 || p >= NPROC || p == r.k.s.curr || r.k.s.st[p] == Free {
      Still(r, r, Returned(r, Acts(Reaps(p)), lo, hi));
    } else {
      EmptiedOk(r, lo, hi, p);
      assert r.k.s.stack[p] != 0 ==> Blk(r.k.s.stack[p], r.k.len[p]) in GivenBack(r.k, Reaps(p));
      MoreGone(r, Next(r, Acts(Reaps(p)), lo, hi), Emptied(r, p), r.k.s.stack[p], Returned(r, Acts(Reaps(p)), lo, hi), lo, hi);
    }
  }

  lemma AllocMemory(r: Memory, n: nat, lo: int, hi: int)
    requires MemoryOk(r, lo, hi) && Allowed(r, Acts(Allocs(n)))
    ensures var r' := Next(r, Acts(Allocs(n)), lo, hi);
            && HeadersOk(r'.k.f, r'.mem, r'.first, lo, hi) && LiveOk(r'.k.live) && r'.k == Step(r.k, Allocs(n), lo, hi)
            && Untouched(r, r', Returned(r, Acts(Allocs(n)), lo, hi))
  {
    hide HeapOk, HeadersOk, LiveOk, SchedOk, Untouched, Got, Grant;
    JointSize(r.k, lo, hi);
    GotOk(r, lo, hi, Round(n));
    NoneGone(r, Got(r, Round(n)), Returned(r, Acts(Allocs(n)), lo, hi));
  }

  lemma NoneGone(r: Memory, r': Memory, gone: set<int>)
    requires Untouched(r, r', {})
    ensures Untouched(r, r', gone)
  {
  }

  lemma ReleaseMemory(r: Memory, a: int, lo: int, hi: int)
    requires MemoryOk(r, lo, hi) && Allowed(r, Acts(Releases(a)))
    ensures var r' := Next(r, Acts(Releases(a)), lo, hi);
            && HeadersOk(r'.k.f, r'.mem, r'.first, lo, hi) && LiveOk(r'.k.live) && r'.k == Step(r.k, Releases(a), lo, hi)
            && Untouched(r, r', Returned(r, Acts(Releases(a)), lo, hi))
  {
    hide HeapOk, HeadersOk, LiveOk, SchedOk, Untouched, Insert;
    JointSize(r.k, lo, hi);
    GivenOk(r, lo, hi, a);
    MoreGone(r, Next(r, Acts(Releases(a)), lo, hi), Given(r, a), a, Returned(r, Acts(Releases(a)), lo, hi), lo, hi);
  }

  lemma RunMemory(r: Memory, op: Op, lo: int, hi: int)
    requires MemoryOk(r, lo, hi) && Allowed(r, Acts(Runs(op)))
    ensures var r' := Next(r, Acts(Runs(op)), lo, hi);
            && HeadersOk(r'.k.f, r'.mem, r'.first, lo, hi) && LiveOk(r'.k.live) && r'.k == Step(r.k, Runs(op), lo, hi)
            && Untouched(r, r', Returned(r, Acts(Runs(op)), lo, hi))
  {
    hide HeapOk, HeadersOk, LiveOk, SchedOk, Untouched, Apply;
    JointSize(r.k, lo, hi);
    Still(r, Next(r, Acts(Runs(op)), lo, hi), Returned(r, Acts(Runs(op)), lo, hi));
  }

  // ---------- runs ----------

  ghost predicate AllowedRun(r: Memory, ds: seq<Deed>, lo: int, hi: int)
    requires MemoryOk(r, lo, hi)
    decreases |ds|
  {
    ds == [] || (Allowed(r, ds[0]) && (NextOk(r, ds[0], lo, hi); AllowedRun(Next(r, ds[0], lo, hi), ds[1..], lo, hi)))
  }

  ghost function After(r: Memory, ds: seq<Deed>, lo: int, hi: int): Memory
    requires MemoryOk(r, lo, hi) && AllowedRun(r, ds, lo, hi)
    decreases |ds|
  {
    if ds == [] then r else (NextOk(r, ds[0], lo, hi); After(Next(r, ds[0], lo, hi), ds[1..], lo, hi))
  }

  /** The block at `c` is not given back on the way, and the word at `x` not written by its users. */
  ghost predicate LeftAlone(r: Memory, ds: seq<Deed>, c: int, x: int, lo: int, hi: int)
    requires MemoryOk(r, lo, hi) && AllowedRun(r, ds, lo, hi)
    decreases |ds|
  {
    ds == [] ||
    (&& c !in Returned(r, ds[0], lo, hi) && !(ds[0].Writes? && ds[0].a == x)
     && (NextOk(r, ds[0], lo, hi); LeftAlone(Next(r, ds[0], lo, hi), ds[1..], c, x, lo, hi)))
  }

  /**
   Along every run, whatever is created, killed, allocated, released and written elsewhere: a word
   of a block handed out, a process's stack for one, keeps its value until it is written or its
   block is given back, and the block stays what it was.
   */
  lemma {:induction false} WordKept(r: Memory, ds: seq<Deed>, c: int, x: int, lo: int, hi: int)
    requires MemoryOk(r, lo, hi) && AllowedRun(r, ds, lo, hi) && LeftAlone(r, ds, c, x, lo, hi)
    requires c in r.k.live && c <= x < c + r.k.live[c]
    ensures var r' := After(r, ds, lo, hi);
            MemoryOk(r', lo, hi) && c in r'.k.live && r'.k.live[c] == r.k.live[c] && H.W(r'.mem, x) == H.W(r.mem, x)
    decreases |ds|
  {
    hide MemoryOk, Allowed, Next, Returned;
    if ds != [] {
      NextOk(r, ds[0], lo, hi);
      WordNext(r, ds[0], c, x, lo, hi);
      WordKept(Next(r, ds[0], lo, hi), ds[1..], c, x, lo, hi);
    }
  }

  lemma WordNext(r: Memory, d: Deed, c: int, x: int, lo: int, hi: int)
    requires MemoryOk(r, lo, hi) && Allowed(r, d) && c !in Returned(r, d, lo, hi) && !(d.Writes? && d.a == x)
    requires c in r.k.live && c <= x < c + r.k.live[c]
    ensures var r' := Next(r, d, lo, hi); c in r'.k.live && r'.k.live[c] == r.k.live[c] && H.W(r'.mem, x) == H.W(r.mem, x)
  {
    hide MemoryOk, Returned, Step, Given, Got, Emptied;
    NextOk(r, d, lo, hi);
    if d.Acts? {
      assert SameWords(r.mem, Next(r, d, lo, hi).mem, c, r.k.live[c]);
    }
  }

  /** Booted on a fresh heap, its one header written. */
  function FreshMemory(lo: int, hi: int): Memory {
    Memory(Fresh(lo, hi), map[lo := 0, lo + 8 := hi - lo], lo)
  }

  lemma FreshMemoryOk(lo: int, hi: int)
    requires 0 < lo < hi < TWO64 && lo % 8 == 0 && (hi - lo) % 16 == 0
    ensures MemoryOk(FreshMemory(lo, hi), lo, hi)
  {
    hide JointOk, HeadersOk;
    FreshOk(lo, hi);
    FreshHeaders([Blk(lo, hi - lo)], lo, hi);
  }

  lemma FreshHeaders(f: seq<Blk>, lo: int, hi: int)
    requires 0 < lo < hi < TWO64 && lo % 8 == 0 && (hi - lo) % 16 == 0 && f == [Blk(lo, hi - lo)]
    ensures HeadersOk(f, map[lo := 0, lo + 8 := hi - lo], lo, lo, hi)
  {
    WholeWords(hi - lo);
    assert Sorted(f, lo, hi);
  }

  /** In every state reached from boot, the same: the headers are in order, whoever wrote what. */
  ghost predicate MemoryReached(r: Memory, lo: int, hi: int) {
    && 0 < lo < hi < TWO64 && lo % 8 == 0 && (hi - lo) % 16 == 0
    && (FreshMemoryOk(lo, hi); exists ds :: AllowedRun(FreshMemory(lo, hi), ds, lo, hi) && After(FreshMemory(lo, hi), ds, lo, hi) == r)
  }

  lemma {:induction false} AfterOk(r: Memory, ds: seq<Deed>, lo: int, hi: int)
    requires MemoryOk(r, lo, hi) && AllowedRun(r, ds, lo, hi)
    ensures MemoryOk(After(r, ds, lo, hi), lo, hi)
    decreases |ds|
  {
    hide MemoryOk, Allowed, Next;
    if ds != [] {
      NextOk(r, ds[0], lo, hi);
      AfterOk(Next(r, ds[0], lo, hi), ds[1..], lo, hi);
    }
  }

  lemma MemoryAlwaysOk(r: Memory, lo: int, hi: int)
    requires MemoryReached(r, lo, hi)
    ensures MemoryOk(r, lo, hi)
  {
    hide MemoryOk, AllowedRun, After;
    FreshMemoryOk(lo, hi);
    var ds :| AllowedRun(FreshMemory(lo, hi), ds, lo, hi) && After(FreshMemory(lo, hi), ds, lo, hi) == r;
    AfterOk(FreshMemory(lo, hi), ds, lo, hi);
  }
}
