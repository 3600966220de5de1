/**
 Processes and the heap their stacks come from: along every run of both, each stack is a block of
 its own, and every block given back is accepted.
 */
module StackHeap {
  import opened Common
  import opened ReadyList
  import opened FreeList

  const MINSTACK: nat := 1024

  /** `len[p]` is the stack length slot `p` remembers; `live` are the blocks handed out, by address. */
  datatype Kernel = Kernel(s: Sched, len: seq<int>, f: seq<Blk>, live: map<int, int>)

  // ---------- the heap and the blocks handed out ----------

  /** Blocks handed out lie in the heap, overlap neither each other nor what is free. */
  ghost predicate HeapOk(f: seq<Blk>, live: map<int, int>, lo: int, hi: int) {
    && 0 < lo && Sorted(f, lo, hi)
    && (forall a :: a in live ==> live[a] > 0 && lo <= a && a + live[a] <= hi && Unused(f, Blk(a, live[a])))
    && (forall a, b :: a in live && b in live && a != b ==> Apart(Blk(a, live[a]), Blk(b, live[b])))
  }

  /** A block handed out is accepted back. */
  lemma GiveOk(f: seq<Blk>, live: map<int, int>, lo: int, hi: int, a: int)
    requires HeapOk(f, live, lo, hi) && a in live
    ensures Accepts(f, lo, hi, Blk(a, live[a]))
    ensures HeapOk(Insert(f, Blk(a, live[a])), live - {a}, lo, hi)
  {
    hide Unused, Sorted, Accepts, Insert;
    var b := Blk(a, live[a]);
    AcceptsUnused(f, lo, hi, b);
    InsertOk(f, lo, hi, b);
    forall c | c in live && c != a ensures Unused(Insert(f, b), Blk(c, live[c])) {
      UnusedAfter(f, lo, hi, b, Blk(c, live[c]));
    }
  }

  /** A block taken is none of those handed out. */
  lemma TakeOk(f: seq<Blk>, live: map<int, int>, lo: int, hi: int, k: nat, n: int)
    requires HeapOk(f, live, lo, hi) && k < |f| && 0 < n <= f[k].len
    ensures f[k].start !in live && f[k].start != 0
    ensures HeapOk(Carve(f, k, n), live[f[k].start := n], lo, hi)
  {
    hide Unused, Carve;
    var b, g := Blk(f[k].start, n), Carve(f, k, n);
    CarveOk(f, k, n, lo, hi);
    CarvedUnused(f, k, n, lo, hi);
    forall c | c in live ensures c != b.start && Unused(g, Blk(c, live[c])) && Apart(b, Blk(c, live[c])) {
      StillUnused(f, k, n, lo, hi, Blk(c, live[c]));
    }
  }

  lemma CarvedUnused(f: seq<Blk>, k: nat, n: int, lo: int, hi: int)
    requires Sorted(f, lo, hi) && k < |f| && 0 < n <= f[k].len
    ensures Unused(Carve(f, k, n), Blk(f[k].start, n))
  {
    hide Carve, Covered;
    forall a | f[k].start <= a < f[k].start + n ensures !Covered(Carve(f, k, n), a) {
      CarveCovers(f, k, n, lo, hi, a);
    }
  }

  lemma StillUnused(f: seq<Blk>, k: nat, n: int, lo: int, hi: int, c: Blk)
    requires Sorted(f, lo, hi) && k < |f| && 0 < n <= f[k].len && c.len > 0 && Unused(f, c)
    ensures Unused(Carve(f, k, n), c) && Apart(Blk(f[k].start, n), c) && c.start != f[k].start
  {
    hide Carve, Covered, Sorted;
    forall a | c.Has(a) ensures !Covered(Carve(f, k, n), a) && !(f[k].start <= a < f[k].start + n) {
      CarveCovers(f, k, n, lo, hi, a);
      CoveredBy(f, k, n, a);
    }
    var a := if c.start <= f[k].start then f[k].start else c.start;
    assert c.Has(a) ==> !(f[k].start <= a < f[k].start + n);
    assert c.Has(c.start);
  }

  // ---------- no byte gets lost ----------

  ghost predicate InUseAt(live: map<int, int>, a: int) {
    exists b :: b in live && Blk(b, live[b]).Has(a)
  }

  /** Every byte of the heap is free or in a block handed out. */
  ghost predicate NoLeak(f: seq<Blk>, live: map<int, int>, lo: int, hi: int) {
    forall a :: lo <= a < hi ==> Covered(f, a) || InUseAt(live, a)
  }

  lemma TakeNoLeak(f: seq<Blk>, live: map<int, int>, lo: int, hi: int, k: nat, n: int)
    requires HeapOk(f, live, lo, hi) && NoLeak(f, live, lo, hi) && k < |f| && 0 < n <= f[k].len
    ensures NoLeak(Carve(f, k, n), live[f[k].start := n], lo, hi)
  {
    hide Carve, Covered, Unused;
    var l := live[f[k].start := n];
    TakeOk(f, live, lo, hi, k, n);
    forall a | lo <= a < hi ensures Covered(Carve(f, k, n), a) || InUseAt(l, a) {
      CarveCovers(f, k, n, lo, hi, a);
      if f[k].start <= a < f[k].start + n {
        assert f[k].start in l && Blk(f[k].start, l[f[k].start]).Has(a);
      } else if !Covered(f, a) {
        var b :| b in live && Blk(b, live[b]).Has(a);
        assert b in l && Blk(b, l[b]).Has(a);
      }
    }
  }

  lemma GiveNoLeak(f: seq<Blk>, live: map<int, int>, lo: int, hi: int, g: int)
    requires HeapOk(f, live, lo, hi) && NoLeak(f, live, lo, hi) && g in live
    ensures NoLeak(Insert(f, Blk(g, live[g])), live - {g}, lo, hi)
  {
    hide Insert, Covered, Unused, Accepts;
    GiveOk(f, live, lo, hi, g);
    var b := Blk(g, live[g]);
    forall a | lo <= a < hi ensures Covered(Insert(f, b), a) || InUseAt(live - {g}, a) {
      InsertCovers(f, lo, hi, b, a);
      if !Covered(f, a) && !b.Has(a) {
        var c :| c in live && Blk(c, live[c]).Has(a);
        assert c in live - {g} && Blk(c, (live - {g})[c]).Has(a);
      }
    }
  }

  // ---------- the two together ----------

  ghost predicate JointOk(k: Kernel, lo: int, hi: int) {
    && SchedOk(k.s) && HeapOk(k.f, k.live, lo, hi) && |k.len| == NPROC == |k.s.stack|
    && k.s.blocks <= k.live.Keys
    && forall p :: 0 <= p < NPROC && k.s.stack[p] != 0 ==> k.s.stack[p] in k.live && k.len[p] == k.live[k.s.stack[p]]
  }

  /** The heap after slot `p` gave its stack back, if it had one. */
  function Unstack(k: Kernel, p: nat): Kernel
    requires p < |k.len| && p < |k.s.stack|
  {
    if k.s.stack[p] == 0 then k
    else k.(f := Insert(k.f, Blk(k.s.stack[p], k.len[p])), live := k.live - {k.s.stack[p]}, len := k.len[p := 0])
  }

  /** What the heap gives for `n` bytes: an address, 0 if it has none. */
  function Granted(f: seq<Blk>, n: int): int {
    var j := FirstFit(f, n, 0);
    if n == 0 || j == |f| then 0 else f[j].start
  }

  function Grant(k: Kernel, n: int): Kernel {
    var j := FirstFit(k.f, n, 0);
    if n == 0 || j == |k.f| then k else k.(f := Carve(k.f, j, n), live := k.live[k.f[j].start := n])
  }

  function StackSize(want: nat): (n: nat)
    requires want < TWO64
    ensures n == 0 || n >= MINSTACK
    ensures want <= TWO64 - 8 ==> n >= want && n >= MINSTACK && (n < want + 8 || n < MINSTACK + 8)
  {
    Round(if want < MINSTACK then MINSTACK else want)
  }

  /** `proc_create`: the slot's old stack goes back before the new one is taken. */
  function Spawn(k: Kernel, want: nat): Kernel
    requires |k.s.st| == NPROC == |k.s.stack| && |k.len| == NPROC && want < TWO64
  {
    var p := FreeSlot(k.s.st, 1);
    if p == NPROC then k
    else
      var k1 := Unstack(k, p);
      var n := StackSize(want);
      var block := Granted(k1.f, n);
      Grant(k1, n).(s := Create(k.s, block), len := k.len[p := if block == 0 then 0 else n])
  }

  /** `proc_kill`. */
  function Reap(k: Kernel, p: int): Kernel
    requires |k.s.st| == NPROC == |k.s.stack| && |k.len| == NPROC
  {
    if p <= 0 || p >= NPROC || p == k.s.curr || k.s.st[p] == Free then k
    else Unstack(k, p).(s := Kill(k.s, p), len := k.len[p := 0])
  }

  datatype Act =
    | Spawns(want: nat)
    | Reaps(p: int)
    | Allocs(n: nat)
    | Releases(a: int)
    | Runs(op: Op)

  /** Other users free only what they allocated; the scheduler's own operations are as they were. */
  ghost predicate Possible(k: Kernel, x: Act) {
    match x
    case Spawns(want) => want < TWO64
    case Reaps(_) => true
    case Allocs(n) => n < TWO64
    case Releases(a) => a in k.live && a !in k.s.blocks
    case Runs(op) => !op.OpCreate? && !op.OpKill? && Allowed(k.s, op)
  }

  ghost function Step(k: Kernel, x: Act, lo: int, hi: int): Kernel
    requires JointOk(k, lo, hi) && Possible(k, x)
  {
    match x
    case Spawns(want) => Spawn(k, want)
    case Reaps(p) => Reap(k, p)
    case Allocs(n) => Grant(k, Round(n))
    case Releases(a) => k.(f := Insert(k.f, Blk(a, k.live[a])), live := k.live - {a})
    case Runs(op) => k.(s := Apply(k.s, op))
  }

  lemma UnstackOk(k: Kernel, lo: int, hi: int, p: nat)
    requires JointOk(k, lo, hi) && p < NPROC
    ensures k.s.stack[p] != 0 ==> Accepts(k.f, lo, hi, Blk(k.s.stack[p], k.len[p]))
    ensures HeapOk(Unstack(k, p).f, Unstack(k, p).live, lo, hi)
    ensures k.s.blocks - {k.s.stack[p]} <= Unstack(k, p).live.Keys && 0 !in k.s.blocks
    ensures forall r :: 0 <= r < NPROC && r != p && k.s.stack[r] != 0 ==> k.s.stack[r] in Unstack(k, p).live && k.len[r] == Unstack(k, p).live[k.s.stack[r]]
  {
    hide HeapOk, QueueOk, LockOk, Insert, Accepts;
    if k.s.stack[p] != 0 {
      GiveOk(k.f, k.live, lo, hi, k.s.stack[p]);
      forall r | 0 <= r < NPROC && r != p && k.s.stack[r] != 0 ensures k.s.stack[r] != k.s.stack[p] {
        OneStack(k.s, r, p);
      }
    }
  }

  lemma OneStack(s: Sched, r: nat, p: nat)
    requires StacksOk(s) && r < NPROC && p < NPROC && r != p && s.stack[r] != 0
    ensures s.stack[r] != s.stack[p]
  {
  }

  /** What the heap gives is new to everybody. */
  lemma GrantOk(k: Kernel, lo: int, hi: int, n: int)
    requires HeapOk(k.f, k.live, lo, hi) && n >= 0
    ensures HeapOk(Grant(k, n).f, Grant(k, n).live, lo, hi)
    ensures Granted(k.f, n) != 0 ==> Granted(k.f, n) !in k.live && Grant(k, n).live == k.live[Granted(k.f, n) := n]
    ensures Granted(k.f, n) == 0 ==> Grant(k, n).live == k.live
    ensures Grant(k, n).s == k.s && Grant(k, n).len == k.len
  {
    hide HeapOk, Carve;
    var j := FirstFit(k.f, n, 0);
    if n > 0 && j < |k.f| {
      TakeOk(k.f, k.live, lo, hi, j, n);
    }
  }

  /** The stack of a new process is no block in use, which is what the scheduler counts on. */
  lemma SpawnOk(k: Kernel, lo: int, hi: int, want: nat)
    requires JointOk(k, lo, hi) && want < TWO64
    ensures JointOk(Spawn(k, want), lo, hi)
    ensures FreeSlot(k.s.st, 1) < NPROC ==>
      var block := Granted(Unstack(k, FreeSlot(k.s.st, 1)).f, StackSize(want));
      block !in InUse(k.s) && Spawn(k, want).s == Create(k.s, block)
  {
    hide HeapOk, SchedOk, Insert, Granted, Grant, StackSize, Unstack;
    JointSize(k, lo, hi);
    var p := FreeSlot(k.s.st, 1);
    if p < NPROC {
      var k1, n := Unstack(k, p), StackSize(want);
      var block := Granted(k1.f, n);
      UnstackOk(k, lo, hi, p);
      GrantOk(k1, lo, hi, n);
      CreateOk(k.s, block);
      CreateStack(k.s, block);
    }
  }

  /** With a free slot and a block large enough a process is made, in the lowest slot, on a stack of at least the size asked for. */
  lemma SpawnServed(k: Kernel, lo: int, hi: int, want: nat, p: nat)
    requires JointOk(k, lo, hi) && want <= TWO64 - 8 && |k.s.st| == NPROC == |k.s.stack| && |k.len| == NPROC
    requires 0 < p < NPROC && k.s.st[p] == Free && forall r :: 0 < r < p ==> k.s.st[r] != Free
    requires exists j :: 0 <= j < |Unstack(k, p).f| && Unstack(k, p).f[j].len >= 8 + if want < MINSTACK then MINSTACK else want
    ensures var k' := Spawn(k, want);
            && k'.s.st == k.s.st[p := Ready] && k'.s.q == k.s.q + [p]
            && |k'.s.stack| == NPROC && k'.s.stack[p] in k'.live && k'.live[k'.s.stack[p]] >= want && k'.live[k'.s.stack[p]] >= MINSTACK
  {
    hide HeapOk, SchedOk, Insert, Unstack, Carve;
    assert FreeSlot(k.s.st, 1) == p;
    var k1, n := Unstack(k, p), StackSize(want);
    UnstackOk(k, lo, hi, p);
    GrantOk(k1, lo, hi, n);
    ServedWhere(k1.f, lo, hi, k1.live, n);
  }

  lemma ServedWhere(f: seq<Blk>, lo: int, hi: int, live: map<int, int>, n: int)
    requires HeapOk(f, live, lo, hi) && n > 0 && exists j :: 0 <= j < |f| && f[j].len >= n
    ensures Granted(f, n) != 0
  {
    hide Unused, Covered;
  }

  lemma CreateStack(s: Sched, block: int)
    requires |s.st| == NPROC && |s.stack| == NPROC && FreeSlot(s.st, 1) < NPROC
    ensures var p := FreeSlot(s.st, 1);
            Create(s, block).stack == s.stack[p := block] && Create(s, block).blocks == InUse(s) + if block == 0 then {} else {block}
  {
  }

  lemma ReapOk(k: Kernel, lo: int, hi: int, p: int)
    requires JointOk(k, lo, hi)
    ensures JointOk(Reap(k, p), lo, hi) && Reap(k, p).s == Kill(k.s, p)
  {
    hide HeapOk, SchedOk, Insert, Unstack;
    KillOk(k.s, p);
    if 0 < p < NPROC {
      UnstackOk(k, lo, hi, p);
    }
  }

  /** The operation of the scheduler that a step amounts to, if any. */
  ghost function AsOp(k: Kernel, x: Act): Option<Op>
    requires |k.s.st| == NPROC == |k.s.stack| && |k.len| == NPROC && Possible(k, x)
  {
    match x
    case Spawns(want) =>
      var p := FreeSlot(k.s.st, 1);
      if p == NPROC then None else Some(OpCreate(Granted(Unstack(k, p).f, StackSize(want))))
    case Reaps(p) => Some(OpKill(p))
    case Runs(op) => Some(op)
    case _ => None
  }

  /** The blocks a step gives back. */
  ghost function GivenBack(k: Kernel, x: Act): set<Blk>
    requires |k.s.st| == NPROC == |k.s.stack| && |k.len| == NPROC && Possible(k, x)
  {
    match x
    case Spawns(_) =>
      var p := FreeSlot(k.s.st, 1);
      if p == NPROC || k.s.stack[p] == 0 then {} else {Blk(k.s.stack[p], k.len[p])}
    case Reaps(p) =>
      if p <= 0 || p >= NPROC || p == k.s.curr || k.s.st[p] == Free || k.s.stack[p] == 0 then {} else {Blk(k.s.stack[p], k.len[p])}
    case Releases(a) => {Blk(a, k.live[a])}
    case _ => {}
  }

  /** Sizes of a state in shape. */
  lemma JointSize(k: Kernel, lo: int, hi: int)
    requires JointOk(k, lo, hi)
    ensures |k.s.st| == NPROC == |k.s.stack| && |k.len| == NPROC
  {
  }

  /** A step keeps everything in shape, is one the scheduler allows, and every block it gives back is accepted. */
  lemma StepOk(k: Kernel, x: Act, lo: int, hi: int)
    requires JointOk(k, lo, hi) && Possible(k, x)
    ensures JointOk(Step(k, x, lo, hi), lo, hi)
    ensures |k.s.st| == NPROC == |k.s.stack| && |k.len| == NPROC
    ensures AsOp(k, x).Some? ==> Allowed(k.s, AsOp(k, x).value) && Step(k, x, lo, hi).s == Apply(k.s, AsOp(k, x).value)
    ensures AsOp(k, x).None? ==> Step(k, x, lo, hi).s == k.s
    ensures forall b :: b in GivenBack(k, x) ==> b.start in k.live && b.len == k.live[b.start] && Accepts(k.f, lo, hi, b)
  {
    hide HeapOk, SchedOk, Insert, Accepts, Unstack, Grant, Granted, StackSize, Create, Kill;
    JointSize(k, lo, hi);
    match x
    case Spawns(want) =>
      SpawnOk(k, lo, hi, want);
      if FreeSlot(k.s.st, 1) < NPROC { UnstackOk(k, lo, hi, FreeSlot(k.s.st, 1)); }
    case Reaps(p) =>
      ReapOk(k, lo, hi, p);
      if 0 < p < NPROC { UnstackOk(k, lo, hi, p); }
    case Allocs(n) => GrantOk(k, lo, hi, Round(n));
    case Releases(a) =>
      GiveOk(k.f, k.live, lo, hi, a);
      NotStack(k.s, a);
    case Runs(op) => RunKeeps(k, lo, hi, op);
  }

  lemma NotStack(s: Sched, a: int)
    requires SchedOk(s) && a !in s.blocks
    ensures forall p :: 0 <= p < NPROC && s.stack[p] != 0 ==> s.stack[p] != a
  {
  }

  lemma RunKeeps(k: Kernel, lo: int, hi: int, op: Op)
    requires JointOk(k, lo, hi) && !op.OpCreate? && !op.OpKill? && Allowed(k.s, op)
    ensures JointOk(k.(s := Apply(k.s, op)), lo, hi)
  {
    hide HeapOk, SchedOk;
    ApplyOk(k.s, op);
    StacksKept(k.s, op);
  }

  lemma StacksKept(s: Sched, op: Op)
    requires SchedOk(s) && !op.OpCreate? && !op.OpKill?
    ensures Apply(s, op).stack == s.stack && Apply(s, op).blocks == s.blocks
  {
  }

  // ---------- runs ----------

  ghost predicate Feasible(k: Kernel, xs: seq<Act>, lo: int, hi: int)
    requires JointOk(k, lo, hi)
    decreases |xs|
  {
    xs == [] || (Possible(k, xs[0]) && (StepOk(k, xs[0], lo, hi); Feasible(Step(k, xs[0], lo, hi), xs[1..], lo, hi)))
  }

  ghost function Reached(k: Kernel, xs: seq<Act>, lo: int, hi: int): Kernel
    requires JointOk(k, lo, hi) && Feasible(k, xs, lo, hi)
    decreases |xs|
  {
    if xs == [] then k else (StepOk(k, xs[0], lo, hi); Reached(Step(k, xs[0], lo, hi), xs[1..], lo, hi))
  }

  /** The scheduler's share of a run. */
  ghost function Ops(k: Kernel, xs: seq<Act>, lo: int, hi: int): seq<Op>
    requires JointOk(k, lo, hi) && Feasible(k, xs, lo, hi)
    decreases |xs|
  {
    if xs == [] then []
    else
      StepOk(k, xs[0], lo, hi);
      var rest := Ops(Step(k, xs[0], lo, hi), xs[1..], lo, hi);
      if AsOp(k, xs[0]).Some? then [AsOp(k, xs[0]).value] + rest else rest
  }

  /** Booted on a fresh heap. */
  function Fresh(lo: int, hi: int): Kernel {
    Kernel(Boot(), seq(NPROC, i => 0), [Blk(lo, hi - lo)], map[])
  }

  lemma FreshOk(lo: int, hi: int)
    requires 0 < lo < hi
    ensures JointOk(Fresh(lo, hi), lo, hi)
  {
    BootOk();
  }

  /**
   Processes, stacks and heap stay in shape along every run, and the scheduler's share of it is a
   run of legal operations: that new stacks are fresh blocks is a fact, not an assumption.
   */
  lemma {:induction false} RunsAreLegal(k: Kernel, xs: seq<Act>, lo: int, hi: int)
    requires JointOk(k, lo, hi) && Feasible(k, xs, lo, hi)
    ensures JointOk(Reached(k, xs, lo, hi), lo, hi)
    ensures SchedOk(k.s) && Legal(k.s, Ops(k, xs, lo, hi)) && Run(k.s, Ops(k, xs, lo, hi)) == Reached(k, xs, lo, hi).s
    decreases |xs|
  {
    hide HeapOk, SchedOk, Step, AsOp, Possible, Apply, Allowed;
    if xs != [] {
      StepOk(k, xs[0], lo, hi);
      var k1 := Step(k, xs[0], lo, hi);
      RunsAreLegal(k1, xs[1..], lo, hi);
      if AsOp(k, xs[0]).Some? {
        ApplyOk(k.s, AsOp(k, xs[0]).value);
        RunCons(k.s, AsOp(k, xs[0]).value, Ops(k1, xs[1..], lo, hi));
      }
    }
  }

  /** `k` is reached from boot on a fresh heap by a run that revives no slot without a stack. */
  ghost predicate Reachable(k: Kernel, lo: int, hi: int) {
    0 < lo < hi && (FreshOk(lo, hi); exists xs :: Sound(xs, lo, hi) && Reached(Fresh(lo, hi), xs, lo, hi) == k)
  }

  ghost predicate Sound(xs: seq<Act>, lo: int, hi: int)
    requires 0 < lo < hi
    ensures Sound(xs, lo, hi) ==> JointOk(Fresh(lo, hi), lo, hi) && Feasible(Fresh(lo, hi), xs, lo, hi)
  {
    FreshOk(lo, hi);
    Feasible(Fresh(lo, hi), xs, lo, hi) && (RunsAreLegal(Fresh(lo, hi), xs, lo, hi); NeverRevives(Boot(), Ops(Fresh(lo, hi), xs, lo, hi)))
  }

  /**
   From boot on a fresh heap, along every run that revives no slot without a stack: the running
   process stands on a block that was handed out and of which no byte is free.
   */
  lemma RunningStackUnfreed(k: Kernel, lo: int, hi: int)
    requires Reachable(k, lo, hi)
    ensures |k.s.stack| == NPROC && |k.len| == NPROC && k.s.curr < NPROC &&
            (k.s.curr != NULLPROC ==>
               var b := Blk(k.s.stack[k.s.curr], k.len[k.s.curr]);
               b.start in k.live && b.len == k.live[b.start] && b.len > 0 && Unused(k.f, b))
  {
    hide Feasible, Ops, Reached, Legal, NeverRevives, Run, SchedOk, Unused, Sorted, Apart;
    var xs :| Sound(xs, lo, hi) && Reached(Fresh(lo, hi), xs, lo, hi) == k;
    RunsAreLegal(Fresh(lo, hi), xs, lo, hi);
    RunningStackLive(Ops(Fresh(lo, hi), xs, lo, hi));
  }

  // ---------- nothing leaks ----------

  lemma UnstackNoLeak(k: Kernel, lo: int, hi: int, p: nat)
    requires JointOk(k, lo, hi) && NoLeak(k.f, k.live, lo, hi) && p < NPROC && |k.len| == NPROC == |k.s.stack|
    ensures NoLeak(Unstack(k, p).f, Unstack(k, p).live, lo, hi)
  {
    hide HeapOk, SchedOk, NoLeak, Insert;
    if k.s.stack[p] != 0 {
      GiveNoLeak(k.f, k.live, lo, hi, k.s.stack[p]);
    }
  }

  lemma GrantNoLeak(k: Kernel, lo: int, hi: int, n: int)
    requires HeapOk(k.f, k.live, lo, hi) && NoLeak(k.f, k.live, lo, hi) && n >= 0
    ensures NoLeak(Grant(k, n).f, Grant(k, n).live, lo, hi)
  {
    hide HeapOk, NoLeak, Carve;
    var j := FirstFit(k.f, n, 0);
    if n > 0 && j < |k.f| {
      TakeNoLeak(k.f, k.live, lo, hi, j, n);
    }
  }

  /** No step loses a byte of the heap: each is free or in a block that is still handed out. */
  lemma StepNoLeak(k: Kernel, x: Act, lo: int, hi: int)
    requires JointOk(k, lo, hi) && Possible(k, x) && NoLeak(k.f, k.live, lo, hi)
    ensures NoLeak(Step(k, x, lo, hi).f, Step(k, x, lo, hi).live, lo, hi)
  {
    hide HeapOk, SchedOk, NoLeak, Insert, Unstack, Grant, Granted, StackSize, Create, Kill;
    JointSize(k, lo, hi);
    match x
    case Spawns(want) =>
      var p := FreeSlot(k.s.st, 1);
      if p < NPROC {
        UnstackOk(k, lo, hi, p);
        UnstackNoLeak(k, lo, hi, p);
        GrantNoLeak(Unstack(k, p), lo, hi, StackSize(want));
      }
    case Reaps(p) => if 0 < p < NPROC { UnstackNoLeak(k, lo, hi, p); }
    case Allocs(n) => GrantNoLeak(k, lo, hi, Round(n));
    case Releases(a) => GiveNoLeak(k.f, k.live, lo, hi, a);
    case Runs(op) =>
  }

  /** Along every run every byte stays free or in a block handed out, if it was so at the start. */
  lemma {:induction false} NothingLeaks(k: Kernel, xs: seq<Act>, lo: int, hi: int)
    requires JointOk(k, lo, hi) && Feasible(k, xs, lo, hi) && NoLeak(k.f, k.live, lo, hi)
    ensures NoLeak(Reached(k, xs, lo, hi).f, Reached(k, xs, lo, hi).live, lo, hi)
    decreases |xs|
  {
    hide JointOk, NoLeak, Step, Possible;
    if xs != [] {
      StepOk(k, xs[0], lo, hi);
      StepNoLeak(k, xs[0], lo, hi);
      NothingLeaks(Step(k, xs[0], lo, hi), xs[1..], lo, hi);
    }
  }

  lemma FreshNoLeak(lo: int, hi: int)
    requires 0 < lo < hi
    ensures NoLeak(Fresh(lo, hi).f, Fresh(lo, hi).live, lo, hi)
  {
    var f := Fresh(lo, hi).f;
    forall a | lo <= a < hi ensures Covered(f, a) {
      assert f[0].Has(a);
    }
  }
}
