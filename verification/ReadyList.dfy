/**
 What the scheduler does, as functions on its abstract state: the process states, the ready
 queue in order, the running process, the heap lock and the stacks.
 */
module ReadyList {
  import opened Lists

  const NPROC: nat := 2048
  /** The boot context. It is never queued; it runs when nothing else is ready. */
  const NULLPROC: nat := 0

  datatype PState = Free | Ready | Curr | Wait

  /**
   `owner` is the process that holds the heap lock (-1 for none) and `depth` how often;
   `stack[i]` is the stack block of slot `i` (0 for none), `blocks` the stack blocks that were
   taken from the heap and not given back.
   */
  datatype Sched = Sched(
    st: seq<PState>, q: seq<nat>, curr: nat, owner: int, depth: nat,
    stack: seq<int>, blocks: set<int>)

  /** The ready queue holds exactly the ready processes, once each; one process runs. */
  ghost predicate QueueOk(s: Sched) {
    && |s.st| == NPROC
    && Distinct(s.q)
    && (forall p :: p in s.q ==> 0 < p < NPROC)
    && (forall p :: 0 <= p < NPROC ==> (s.st[p] == Ready <==> p in s.q))
    && s.curr < NPROC && s.st[s.curr] == Curr
    && (forall p :: 0 <= p < NPROC && s.st[p] == Curr ==> p == s.curr || p == NULLPROC)
  }

  /** The lock is held iff it has an owner, and the owner can run. */
  ghost predicate LockOk(s: Sched) {
    && |s.st| == NPROC
    && (s.depth > 0 <==> s.owner >= 0)
    && (s.owner >= 0 ==> s.owner < NPROC && s.st[s.owner] != Wait && s.st[s.owner] != Free)
  }

  /** Every outstanding block is the stack of exactly one slot. */
  ghost predicate StacksOk(s: Sched) {
    && |s.stack| == NPROC
    && s.stack[NULLPROC] == 0
    && (forall p :: 0 <= p < NPROC && s.stack[p] != 0 ==> s.stack[p] in s.blocks)
    && (forall b :: b in s.blocks ==> b != 0 && exists p :: 0 <= p < NPROC && s.stack[p] == b)
    && (forall p, r :: 0 <= p < r < NPROC && s.stack[p] != 0 ==> s.stack[p] != s.stack[r])
  }

  ghost predicate SchedOk(s: Sched) {
    QueueOk(s) && LockOk(s) && StacksOk(s)
  }

  // ---------- operations ----------

  function Boot(): Sched {
    Sched(seq(NPROC, i => if i == NULLPROC then Curr else Free), [], NULLPROC, -1, 0, seq(NPROC, i => 0), {})
  }

  /** The lowest free slot, never slot 0; NPROC if there is none. */
  function FreeSlot(st: seq<PState>, i: nat): (r: nat)
    requires i <= NPROC == |st|
    ensures i <= r <= NPROC && (r < NPROC ==> st[r] == Free)
    ensures forall j :: i <= j < r ==> st[j] != Free
    decreases NPROC - i
  {
    if i == NPROC || st[i] == Free then i else FreeSlot(st, i + 1)
  }

  /** The blocks in use once the next slot has given back what its last occupant left. */
  function InUse(s: Sched): set<int>
    requires |s.st| == NPROC && |s.stack| == NPROC
  {
    var p := FreeSlot(s.st, 1);
    if p == NPROC then s.blocks else s.blocks - {s.stack[p]}
  }

  /** A new process; `block` is what the heap gave for its stack, 0 if it had none. */
  function Create(s: Sched, block: int): Sched
    requires |s.st| == NPROC && |s.stack| == NPROC
  {
    var p := FreeSlot(s.st, 1);
    if p == NPROC then s
    else
      var s1 := s.(stack := s.stack[p := 0], blocks := s.blocks - {s.stack[p]});
      if block == 0 then s1
      else s1.(st := s.st[p := Ready], q := s.q + [p], stack := s.stack[p := block], blocks := s1.blocks + {block})
  }

  function MakeReady(s: Sched, p: int): Sched
    requires |s.st| == NPROC
  {
    if p <= 0 || p >= NPROC || s.st[p] == Ready || s.st[p] == Curr then s
    else s.(st := s.st[p := Ready], q := s.q + [p])
  }

  /** The process at the head of `q` runs, or NULLPROC if there is none. */
  function Dispatch(s: Sched): Sched
    requires |s.st| == NPROC && forall p :: p in s.q ==> p < NPROC
  {
    if s.q == [] then s.(st := s.st[NULLPROC := Curr], curr := NULLPROC)
    else
      assert s.q[0] in s.q;
      s.(st := s.st[s.q[0] := Curr], curr := s.q[0], q := s.q[1..])
  }

  /** Yield: to the back of the queue, unless there is nobody else to run. */
  function Resched(s: Sched): Sched
    requires |s.st| == NPROC && s.curr < NPROC && forall p :: p in s.q ==> p < NPROC
  {
    if s.q == [] then s
    else if s.st[s.curr] == Curr && s.curr != NULLPROC then
      Dispatch(s.(st := s.st[s.curr := Ready], q := s.q + [s.curr]))
    else Dispatch(s)
  }

  function Block(s: Sched): Sched
    requires |s.st| == NPROC && s.curr < NPROC && forall p :: p in s.q ==> p < NPROC
  {
    Dispatch(s.(st := s.st[s.curr := Wait]))
  }

  function Exit(s: Sched): Sched
    requires |s.st| == NPROC && s.curr < NPROC && forall p :: p in s.q ==> p < NPROC
  {
    Dispatch(s.(st := s.st[s.curr := Free], q := Without(s.q, s.curr)))
  }

  function Kill(s: Sched, p: int): Sched
    requires |s.st| == NPROC && |s.stack| == NPROC
  {
    if p <= 0 || p >= NPROC || p == s.curr || s.st[p] == Free then s
    else
      s.(st := s.st[p := Free], q := Without(s.q, p),
         owner := if s.owner == p then -1 else s.owner, depth := if s.owner == p then 0 else s.depth,
         stack := s.stack[p := 0], blocks := s.blocks - {s.stack[p]})
  }

  // ---------- the heap lock ----------

  predicate CanLock(s: Sched) {
    s.owner < 0 || s.owner == s.curr
  }

  function Lock(s: Sched): Sched {
    if CanLock(s) then s.(owner := s.curr, depth := s.depth + 1) else s
  }

  function Unlock(s: Sched): Sched {
    if s.owner != s.curr then s
    else if s.depth <= 1 then s.(owner := -1, depth := 0)
    else s.(depth := s.depth - 1)
  }

  function UnlockAll(s: Sched): Sched {
    if s.owner == s.curr then s.(owner := -1, depth := 0) else s
  }

  function Held(s: Sched): nat {
    if s.owner == s.curr then s.depth else 0
  }

  // ---------- every operation keeps the invariant ----------

  lemma BootOk()
    ensures SchedOk(Boot())
  {
    assert Boot().st[NULLPROC] == Curr;
  }

  lemma CreateOk(s: Sched, block: int)
    requires SchedOk(s) && block !in InUse(s)
    ensures SchedOk(Create(s, block))
    ensures Create(s, block).curr == s.curr
  {
    CreateQueue(s, block);
    CreateStacks(s, block);
  }

  lemma CreateQueue(s: Sched, block: int)
    requires SchedOk(s)
    ensures QueueOk(Create(s, block)) && LockOk(Create(s, block))
  {
    var p := FreeSlot(s.st, 1);
    if p < NPROC && block != 0 {
      var t := Create(s, block);
      assert p !in s.q;
      assert forall r :: r in t.q <==> r in s.q || r == p;
    }
  }

  lemma CreateStacks(s: Sched, block: int)
    requires StacksOk(s) && |s.st| == NPROC && block !in InUse(s)
    ensures StacksOk(Create(s, block))
  {
    hide FreeSlot;
    var p := FreeSlot(s.st, 1);
    if p < NPROC {
      var t := Create(s, block);
      StackSwapped(s, t, p, block);
      assert s.stack[p] in s.blocks || s.stack[p] == 0;
    }
  }

  /** Every block is some slot's stack after slot `p` swapped its own. */
  lemma StackSwapped(s: Sched, t: Sched, p: nat, block: int)
    requires StacksOk(s) && p < NPROC && t.stack == s.stack[p := block]
    requires t.blocks == s.blocks - {s.stack[p]} + if block == 0 then {} else {block}
    ensures forall b :: b in t.blocks ==> b != 0 && exists r :: 0 <= r < NPROC && t.stack[r] == b
  {
    forall b | b in t.blocks ensures b != 0 && exists r :: 0 <= r < NPROC && t.stack[r] == b {
      if b == block {
        assert t.stack[p] == b;
      } else {
        var r :| 0 <= r < NPROC && s.stack[r] == b;
        assert r != p && t.stack[r] == b;
      }
    }
  }

  lemma MakeReadyOk(s: Sched, p: int)
    requires SchedOk(s)
    ensures SchedOk(MakeReady(s, p))
  {
    if !(p <= 0 || p >= NPROC || s.st[p] == Ready || s.st[p] == Curr) {
      var t := MakeReady(s, p);
      assert forall r :: r in t.q <==> r in s.q || r == p;
    }
  }

  /** Dispatching from a state in which nobody runs but perhaps NULLPROC. */
  lemma DispatchOk(s: Sched)
    requires |s.st| == NPROC && Distinct(s.q) && LockOk(s)
    requires forall p :: p in s.q ==> 0 < p < NPROC
    requires forall p :: 0 <= p < NPROC ==> (s.st[p] == Ready <==> p in s.q)
    requires forall p :: 0 <= p < NPROC && s.st[p] == Curr ==> p == NULLPROC
    ensures QueueOk(Dispatch(s)) && LockOk(Dispatch(s))
  {
    if s.q != [] {
      var t := Dispatch(s);
      assert s.q == [s.q[0]] + s.q[1..];
      assert s.q[0] in s.q && s.q[0] !in s.q[1..];
      assert forall p :: p in t.q <==> p in s.q && p != s.q[0];
    }
  }

  lemma ReschedOk(s: Sched)
    requires SchedOk(s)
    ensures SchedOk(Resched(s))
  {
    if s.q != [] {
      if s.curr != NULLPROC {
        var t := s.(st := s.st[s.curr := Ready], q := s.q + [s.curr]);
        assert forall r :: r in t.q <==> r in s.q || r == s.curr;
        DispatchOk(t);
      } else {
        DispatchOk(s);
      }
    }
  }

  /** Stopping now would leave the lock with a process that does not run; the idle context with nobody to run goes on at once. */
  predicate Stranding(s: Sched) {
    s.owner == s.curr && !(s.curr == NULLPROC && |s.q| == 0)
  }

  /** Blocking keeps everything in shape exactly when it does not leave the lock with a waiting process. */
  lemma BlockOk(s: Sched)
    requires SchedOk(s)
    ensures SchedOk(Block(s)) <==> !Stranding(s)
  {
    StopOk(s, Wait, s.q);
  }

  lemma ExitOk(s: Sched)
    requires SchedOk(s)
    ensures SchedOk(Exit(s)) <==> !Stranding(s)
  {
    StopOk(s, Free, Without(s.q, s.curr));
  }

  /** The running process stops in state `st`. */
  lemma StopOk(s: Sched, st: PState, q: seq<nat>)
    requires SchedOk(s) && (st == Wait || st == Free) && q == s.q
    ensures SchedOk(Dispatch(s.(st := s.st[s.curr := st], q := q))) <==> !Stranding(s)
  {
    var t := s.(st := s.st[s.curr := st], q := q);
    if s.owner != s.curr {
      DispatchOk(t);
    } else if s.q == [] {
      DispatchOk(t.(owner := -1, depth := 0));
    } else {
      assert s.q[0] in s.q;
    }
  }

  lemma KillOk(s: Sched, p: int)
    requires SchedOk(s)
    ensures SchedOk(Kill(s, p))
    ensures Kill(s, p).curr == s.curr && Kill(s, p).stack[s.curr] == s.stack[s.curr]
  {
    if !(p <= 0 || p >= NPROC || p == s.curr || s.st[p] == Free) {
      KillStacks(s, p);
    }
  }

  lemma KillStacks(s: Sched, p: int)
    requires StacksOk(s) && 0 < p < NPROC == |s.st|
    ensures StacksOk(Kill(s, p))
  {
    var t := Kill(s, p);
    forall b | b in t.blocks ensures exists r :: 0 <= r < NPROC && t.stack[r] == b {
      var r :| 0 <= r < NPROC && s.stack[r] == b;
      assert t.stack[r] == b;
    }
  }

  lemma LockKeeps(s: Sched)
    requires SchedOk(s)
    ensures SchedOk(Lock(s)) && SchedOk(Unlock(s)) && SchedOk(UnlockAll(s))
  {
  }

  /** A nested acquisition is undone by one release. */
  lemma NestedRelease(s: Sched)
    requires SchedOk(s) && s.owner == s.curr
    ensures Unlock(Lock(s)) == s && Lock(s).depth == s.depth + 1 && Lock(s).owner == s.owner
  {
  }

  function LockTimes(s: Sched, n: nat): Sched {
    if n == 0 then s else Lock(LockTimes(s, n - 1))
  }

  function UnlockTimes(s: Sched, n: nat): Sched {
    if n == 0 then s else Unlock(UnlockTimes(s, n - 1))
  }

  /**
   Acquisitions are counted: after `n` of them from a free lock the running process owns it to
   depth `n`, keeps it until the `n`-th release, and then everything is as it was.
   */
  lemma AcquisitionsCount(s: Sched, n: nat, k: nat)
    requires s.owner == -1 && s.depth == 0 && k <= n && n > 0
    ensures LockTimes(s, n) == s.(owner := s.curr, depth := n)
    ensures UnlockTimes(LockTimes(s, n), k) == if k < n then s.(owner := s.curr, depth := n - k) else s
  {
    LocksCount(s, n);
    UnlocksCount(s, n, k);
  }

  lemma {:induction false} LocksCount(s: Sched, n: nat)
    requires s.owner == -1 && s.depth == 0 && n > 0
    ensures LockTimes(s, n) == s.(owner := s.curr, depth := n)
  {
    if n > 1 {
      LocksCount(s, n - 1);
    }
  }

  lemma {:induction false} UnlocksCount(s: Sched, n: nat, k: nat)
    requires s.owner == -1 && s.depth == 0 && k <= n && n > 0
    ensures UnlockTimes(s.(owner := s.curr, depth := n), k) == if k < n then s.(owner := s.curr, depth := n - k) else s
  {
    if k > 0 {
      UnlocksCount(s, n, k - 1);
    }
  }

  /** Nobody takes or gives up a lock that somebody else owns; giving it all up hands back how often it was held. */
  lemma OthersLock(s: Sched)
    requires SchedOk(s)
    ensures s.owner >= 0 && s.owner != s.curr ==> Lock(s) == s && Unlock(s) == s && UnlockAll(s) == s && Held(s) == 0
    ensures s.owner == s.curr ==> UnlockAll(s) == s.(owner := -1, depth := 0) && Held(s) == s.depth >= 1
  {
  }

  // ---------- what creating, stopping and killing do ----------

  /** A new process takes the lowest free slot and the end of the queue; nobody else notices. */
  lemma Created(s: Sched, block: int)
    requires SchedOk(s) && block !in InUse(s)
    ensures var s' := Create(s, block);
            (exists p :: 0 < p < NPROC && s.st[p] == Free) && block != 0 ==>
              exists p :: 0 < p < NPROC && s.st[p] == Free && (forall r :: 0 < r < p ==> s.st[r] != Free)
                && s'.st == s.st[p := Ready] && s'.q == s.q + [p] && s'.stack == s.stack[p := block]
                && s'.curr == s.curr && s'.owner == s.owner && s'.depth == s.depth
                && s'.blocks == (s.blocks - {s.stack[p]}) + {block}
    ensures block == 0 || (forall p :: 0 < p < NPROC ==> s.st[p] != Free) ==>
              Create(s, block).st == s.st && Create(s, block).q == s.q && Create(s, block).curr == s.curr
  {
    var p := FreeSlot(s.st, 1);
    if p < NPROC {
      assert s.st[p] == Free;
    }
  }

  /** A killed process is gone: its slot free, off the queue, its stack and its lock given back; the others keep theirs. */
  lemma Killed(s: Sched, p: nat)
    requires SchedOk(s) && 0 < p < NPROC && p != s.curr && s.st[p] != Free
    ensures var s' := Kill(s, p);
            && s'.st == s.st[p := Free] && p !in s'.q && (forall x :: x != p ==> (x in s'.q <==> x in s.q))
            && s'.stack == s.stack[p := 0] && s.stack[p] !in s'.blocks
            && (forall b :: b != s.stack[p] ==> (b in s'.blocks <==> b in s.blocks))
            && s'.owner != p && (s.owner != p ==> s'.owner == s.owner && s'.depth == s.depth)
  {
  }

  /** A process that yields goes to the end of the queue, and the first in the queue runs. */
  lemma Yielded(s: Sched)
    requires SchedOk(s) && s.q != []
    ensures var s' := Resched(s);
            && s'.curr == s.q[0] && s'.q == s.q[1..] + (if s.curr == NULLPROC then [] else [s.curr])
            && s'.owner == s.owner && s'.depth == s.depth && s'.stack == s.stack && s'.blocks == s.blocks
  {
    assert s.q[0] in s.q;
    assert (s.q + [s.curr])[1..] == s.q[1..] + [s.curr];
  }

  /** One that blocks or exits leaves the queue as it was but for its head, which runs; NULLPROC does if there is none. */
  lemma Stopped(s: Sched)
    requires SchedOk(s) && s.curr != NULLPROC
    ensures var runs := if s.q == [] then NULLPROC else s.q[0];
            && s.curr < NPROC == |s.st| && runs < NPROC
            && Block(s).st == s.st[s.curr := Wait][runs := Curr]
            && Exit(s).st == s.st[s.curr := Free][runs := Curr]
    ensures Block(s).curr == Exit(s).curr == if s.q == [] then NULLPROC else s.q[0]
    ensures Block(s).q == Exit(s).q == if s.q == [] then [] else s.q[1..]
    ensures Block(s).stack == Exit(s).stack == s.stack && Block(s).blocks == Exit(s).blocks == s.blocks
    ensures Block(s).owner == Exit(s).owner == s.owner && Block(s).depth == Exit(s).depth == s.depth
  {
    assert s.curr !in s.q;
    assert s.q != [] ==> s.q[0] in s.q;
  }

  /** A waiting process becomes ready, behind everybody; readying one that is ready or runs does nothing. */
  lemma Readied(s: Sched, p: nat)
    requires SchedOk(s) && 0 < p < NPROC
    ensures s.st[p] == Wait ==> MakeReady(s, p) == s.(st := s.st[p := Ready], q := s.q + [p])
    ensures s.st[p] == Ready || s.st[p] == Curr ==> MakeReady(s, p) == s
  {
  }

  // ---------- runs ----------

  datatype Op =
    | OpCreate(block: int)
    | OpReady(p: int)
    | OpYield
    | OpPreempt(enabled: bool)
    | OpBlock
    | OpExit
    | OpKill(p: int)
    | OpLock
    | OpUnlock
    | OpUnlockAll

  /** What the callers promise: fresh blocks from the heap, no blocking or exiting with the lock. */
  predicate Allowed(s: Sched, op: Op) {
    match op
    case OpCreate(b) => |s.st| == NPROC && |s.stack| == NPROC && b !in InUse(s)
    case OpBlock => !Stranding(s)
    case OpExit => !Stranding(s)
    case _ => true
  }

  /** A timer tick only takes the processor away from a real process. */
  ghost function Apply(s: Sched, op: Op): Sched
    requires SchedOk(s)
  {
    match op
    case OpCreate(b) => Create(s, b)
    case OpReady(p) => MakeReady(s, p)
    case OpYield => Resched(s)
    case OpPreempt(on) => if on && s.curr != NULLPROC then Resched(s) else s
    case OpBlock => Block(s)
    case OpExit => Exit(s)
    case OpKill(p) => Kill(s, p)
    case OpLock => Lock(s)
    case OpUnlock => Unlock(s)
    case OpUnlockAll => UnlockAll(s)
  }

  lemma ApplyOk(s: Sched, op: Op)
    requires SchedOk(s) && Allowed(s, op)
    ensures SchedOk(Apply(s, op))
  {
    hide SchedOk;
    match op
    case OpCreate(b) => CreateOk(s, b);
    case OpReady(p) => MakeReadyOk(s, p);
    case OpYield => ReschedOk(s);
    case OpPreempt(_) => ReschedOk(s);
    case OpBlock => BlockOk(s);
    case OpExit => ExitOk(s);
    case OpKill(p) => KillOk(s, p);
    case OpLock => LockKeeps(s);
    case OpUnlock => LockKeeps(s);
    case OpUnlockAll => LockKeeps(s);
  }

  /** The state after `ops`, each of which was allowed when it happened. */
  ghost function Run(s: Sched, ops: seq<Op>): Sched
    requires SchedOk(s) && Legal(s, ops)
    decreases |ops|
  {
    if ops == [] then s else (ApplyOk(s, ops[0]); Run(Apply(s, ops[0]), ops[1..]))
  }

  /** Every operation is allowed in the state in which it happens. */
  ghost predicate Legal(s: Sched, ops: seq<Op>)
    requires SchedOk(s)
    decreases |ops|
  {
    ops == [] || (Allowed(s, ops[0]) && (ApplyOk(s, ops[0]); Legal(Apply(s, ops[0]), ops[1..])))
  }

  /** Whatever the operations and their order, the invariant holds at the end. */
  lemma {:induction false} RunOk(s: Sched, ops: seq<Op>)
    requires SchedOk(s) && Legal(s, ops)
    ensures SchedOk(Run(s, ops))
    decreases |ops|
  {
    if ops != [] {
      ApplyOk(s, ops[0]);
      RunOk(Apply(s, ops[0]), ops[1..]);
    }
  }

  // ---------- fairness ----------

  /** Operations that hand the processor to the head of the queue. */
  predicate Dispatches(s: Sched, op: Op) {
    match op
    case OpYield => true
    case OpPreempt(on) => on && s.curr != NULLPROC
    case OpBlock => true
    case OpExit => true
    case _ => false
  }

  ghost function Dispatched(s: Sched, ops: seq<Op>): nat
    requires SchedOk(s) && Legal(s, ops)
    decreases |ops|
  {
    if ops == [] then 0
    else
      ApplyOk(s, ops[0]);
      (if Dispatches(s, ops[0]) then 1 else 0) + Dispatched(Apply(s, ops[0]), ops[1..])
  }

  ghost predicate RanIn(s: Sched, ops: seq<Op>, p: nat)
    requires SchedOk(s) && Legal(s, ops)
    decreases |ops|
  {
    s.curr == p || (ops != [] && (ApplyOk(s, ops[0]); RanIn(Apply(s, ops[0]), ops[1..], p)))
  }

  lemma WithoutPosition(q: seq<nat>, x: nat, k: nat) returns (k': nat)
    requires Distinct(q) && k < |q| && q[k] != x
    ensures k' <= k && k' < |Without(q, x)| && Without(q, x)[k'] == q[k]
    decreases |q|
  {
    if k == 0 {
      k' := 0;
    } else if q[0] == x {
      k' := WithoutPosition(q[1..], x, k - 1);
    } else {
      k' := WithoutPosition(q[1..], x, k - 1);
      k' := k' + 1;
    }
  }

  /** One operation moves a queued process forward, or runs it, and never back. */
  lemma StepForward(s: Sched, op: Op, p: nat, k: nat) returns (k': nat)
    requires SchedOk(s) && Allowed(s, op) && k < |s.q| && s.q[k] == p && op != OpKill(p)
    ensures var t := Apply(s, op);
            || t.curr == p
            || (k' < |t.q| && t.q[k'] == p && (if Dispatches(s, op) then k' < k else k' <= k))
  {
    k' := k;
    match op
    case OpKill(r) =>
      if 0 < r < NPROC && r != s.curr && s.st[r] != Free {
        k' := WithoutPosition(s.q, r, k);
      }
    case OpExit =>
      var i := WithoutPosition(s.q, s.curr, k);
      k' := if i == 0 then 0 else i - 1;
    case OpYield => k' := if k == 0 then 0 else k - 1;
    case OpBlock => k' := if k == 0 then 0 else k - 1;
    case OpPreempt(on) => if on && s.curr != NULLPROC { k' := if k == 0 then 0 else k - 1; }
    case _ =>
  }

  /**
   Bounded waiting: in any run with more than `k` dispatches in which it is not killed, the
   process at position `k` of the ready queue gets to run.
   */
  lemma {:induction false} RunsWithin(s: Sched, ops: seq<Op>, p: nat, k: nat)
    requires SchedOk(s) && Legal(s, ops) && k < |s.q| && s.q[k] == p
    requires OpKill(p) !in ops && Dispatched(s, ops) > k
    ensures RanIn(s, ops, p)
    decreases |ops|
  {
    hide SchedOk, Apply;
    ApplyOk(s, ops[0]);
    var t := Apply(s, ops[0]);
    var k' := StepForward(s, ops[0], p, k);
    if t.curr != p {
      RunsWithin(t, ops[1..], p, k');
    } else {
      RanNow(t, ops[1..], p);
    }
  }

  lemma RanNow(s: Sched, ops: seq<Op>, p: nat)
    requires SchedOk(s) && Legal(s, ops) && s.curr == p
    ensures RanIn(s, ops, p)
  {
  }

  // ---------- stacks over a run ----------

  /** No operation frees the stack of the running process, before or after the switch. */
  lemma RunningStackKept(s: Sched, op: Op)
    requires SchedOk(s) && Allowed(s, op) && s.stack[s.curr] != 0
    ensures s.stack[s.curr] in Apply(s, op).blocks
    ensures Apply(s, op).stack[s.curr] == s.stack[s.curr]
  {
  }

  /** Every process but the boot context has a stack. */
  predicate Backed(s: Sched) {
    |s.st| == NPROC && |s.stack| == NPROC && forall p :: 0 < p < NPROC && s.st[p] != Free ==> s.stack[p] != 0
  }

  /** Readying a slot that is free and has no stack any more. */
  predicate Revives(s: Sched, op: Op) {
    op.OpReady? && 0 < op.p < NPROC && |s.st| == NPROC && |s.stack| == NPROC && s.st[op.p] == Free && s.stack[op.p] == 0
  }

  /** That is the only way to a process without a stack. */
  lemma BackedIff(s: Sched, op: Op)
    requires SchedOk(s) && Allowed(s, op) && Backed(s)
    ensures Backed(Apply(s, op)) <==> !Revives(s, op)
  {
    hide FreeSlot, Without, Dispatch;
    match op
    case OpYield => SwitchBacked(s);
    case OpPreempt(_) => SwitchBacked(s);
    case OpBlock => SwitchBacked(s);
    case OpExit => SwitchBacked(s);
    case OpReady(p) =>
      assert Revives(s, op) ==> Apply(s, op).st[p] == Ready;
    case _ =>
  }

  lemma SwitchBacked(s: Sched)
    requires QueueOk(s) && Backed(s)
    ensures Backed(Resched(s)) && Backed(Block(s)) && Backed(Exit(s))
  {
    hide Without, Dispatch, Distinct;
    if s.q != [] && s.curr != NULLPROC {
      DispatchBacked(s.(st := s.st[s.curr := Ready], q := s.q + [s.curr]));
    }
    DispatchBacked(s);
    DispatchBacked(s.(st := s.st[s.curr := Wait]));
    DispatchBacked(s.(st := s.st[s.curr := Free], q := Without(s.q, s.curr)));
  }

  /** Dispatching a process that has a stack. */
  lemma DispatchBacked(s: Sched)
    requires Backed(s) && forall p :: p in s.q ==> 0 < p < NPROC && s.stack[p] != 0
    ensures Backed(Dispatch(s))
  {
    assert s.q != [] ==> s.q[0] in s.q;
  }

  ghost predicate AlwaysBacked(s: Sched, ops: seq<Op>)
    requires SchedOk(s) && Legal(s, ops)
    decreases |ops|
  {
    Backed(s) && (ops == [] || (ApplyOk(s, ops[0]); AlwaysBacked(Apply(s, ops[0]), ops[1..])))
  }

  ghost predicate NeverRevives(s: Sched, ops: seq<Op>)
    requires SchedOk(s) && Legal(s, ops)
    decreases |ops|
  {
    ops == [] || (!Revives(s, ops[0]) && (ApplyOk(s, ops[0]); NeverRevives(Apply(s, ops[0]), ops[1..])))
  }

  /** All along a run every process has a stack exactly when the run revives no slot without one. */
  lemma {:induction false} BackedRunIff(s: Sched, ops: seq<Op>)
    requires SchedOk(s) && Legal(s, ops) && Backed(s)
    ensures AlwaysBacked(s, ops) <==> NeverRevives(s, ops)
    ensures NeverRevives(s, ops) ==> Backed(Run(s, ops))
    decreases |ops|
  {
    hide SchedOk, Apply, Allowed, Backed, Revives;
    if ops != [] {
      ApplyOk(s, ops[0]);
      BackedIff(s, ops[0]);
      if Backed(Apply(s, ops[0])) {
        BackedRunIff(Apply(s, ops[0]), ops[1..]);
      }
    }
  }

  /** After any run from boot that revives no such slot, the running process stands on a stack of its own that was not given back. */
  lemma RunningStackLive(ops: seq<Op>)
    requires SchedOk(Boot()) && Legal(Boot(), ops) && NeverRevives(Boot(), ops)
    ensures var s := Run(Boot(), ops);
            |s.stack| == NPROC && s.curr < NPROC && (s.curr != NULLPROC ==> s.stack[s.curr] != 0 && s.stack[s.curr] in s.blocks)
  {
    hide Run, Legal, NeverRevives;
    BackedRunIff(Boot(), ops);
    RunOk(Boot(), ops);
  }

  /** Created, killed, readied: the process runs, and its stack has been given back. */
  lemma DeadProcessRuns(b: int)
    requires b != 0
    ensures var ops := [OpCreate(b), OpKill(1), OpReady(1), OpYield];
            && SchedOk(Boot()) && Legal(Boot(), ops)
            && var s := Run(Boot(), ops);
               s.curr == 1 && |s.stack| == NPROC && s.stack[1] == 0 && b !in s.blocks
  {
    hide SchedOk, Apply, Allowed;
    BootOk();
    var s0, ops := Boot(), [OpCreate(b), OpKill(1), OpReady(1), OpYield];
    DeadSteps(b);
    var s1 := Apply(s0, ops[0]);
    ApplyOk(s0, ops[0]);
    var s2 := Apply(s1, ops[1]);
    ApplyOk(s1, ops[1]);
    var s3 := Apply(s2, ops[2]);
    ApplyOk(s2, ops[2]);
    ApplyOk(s3, ops[3]);
    RunNone(Apply(s3, OpYield));
    RunCons(s3, OpYield, []);
    RunCons(s2, OpReady(1), [OpYield]);
    RunCons(s1, OpKill(1), [OpReady(1)] + [OpYield]);
    RunCons(s0, OpCreate(b), [OpKill(1)] + ([OpReady(1)] + [OpYield]));
    assert [OpYield] + [] == [OpYield];
    assert [OpCreate(b)] + ([OpKill(1)] + ([OpReady(1)] + [OpYield])) == ops;
  }

  lemma RunNone(s: Sched)
    requires SchedOk(s)
    ensures Legal(s, []) && Run(s, []) == s
  {
  }

  lemma RunCons(s: Sched, op: Op, ops: seq<Op>)
    requires SchedOk(s) && Allowed(s, op) && SchedOk(Apply(s, op)) && Legal(Apply(s, op), ops)
    ensures Legal(s, [op] + ops) && Run(s, [op] + ops) == Run(Apply(s, op), ops)
  {
    hide SchedOk, Apply, Allowed;
    assert ([op] + ops)[1..] == ops;
  }

  lemma WithoutOnly(p: nat)
    ensures Without([p], p) == []
  {
    assert [p][1..] == [];
  }

  lemma DeadSteps(b: int)
    requires b != 0 && SchedOk(Boot())
    ensures Allowed(Boot(), OpCreate(b)) && SchedOk(Apply(Boot(), OpCreate(b)))
    ensures var s1 := Apply(Boot(), OpCreate(b));
            && Allowed(s1, OpKill(1)) && SchedOk(Apply(s1, OpKill(1)))
            && var s2 := Apply(s1, OpKill(1));
               && Allowed(s2, OpReady(1)) && SchedOk(Apply(s2, OpReady(1)))
               && var s3 := Apply(s2, OpReady(1));
                  && Allowed(s3, OpYield)
                  && var s4 := Apply(s3, OpYield);
                     s4.curr == 1 && |s4.stack| == NPROC && s4.stack[1] == 0 && b !in s4.blocks
  {
    hide SchedOk, Without;
    var s0 := Boot();
    assert FreeSlot(s0.st, 1) == 1 by { assert s0.st[1] == Free; }
    ApplyOk(s0, OpCreate(b));
    var s1 := Apply(s0, OpCreate(b));
    assert s1.q == [1] && s1.stack[1] == b && s1.st[1] == Ready;
    ApplyOk(s1, OpKill(1));
    var s2 := Apply(s1, OpKill(1));
    WithoutOnly(1);
    assert s2.st[1] == Free && s2.q == [] && s2.stack[1] == 0 && b !in s2.blocks;
    ApplyOk(s2, OpReady(1));
    var s3 := Apply(s2, OpReady(1));
    assert s3.q == [1] && s3.curr == 0;
  }

  /** The slots that hold a block, up to `n`. */
  ghost function Holders(s: Sched, n: nat): set<int>
    requires n <= |s.stack|
  {
    if n == 0 then {} else Holders(s, n - 1) + (if s.stack[n - 1] != 0 then {s.stack[n - 1]} else {})
  }

  lemma {:induction false} HoldersAre(s: Sched, n: nat)
    requires n <= |s.stack|
    ensures |Holders(s, n)| <= n
    ensures forall b :: b in Holders(s, n) <==> b != 0 && exists p :: 0 <= p < n && s.stack[p] == b
  {
    if n > 0 {
      HoldersAre(s, n - 1);
    }
    forall b ensures b in Holders(s, n) <==> b != 0 && exists p :: 0 <= p < n && s.stack[p] == b {
      HolderAt(s, n, b);
    }
  }

  lemma {:induction false} HolderAt(s: Sched, n: nat, b: int)
    requires n <= |s.stack|
    ensures b in Holders(s, n) <==> b != 0 && exists p :: 0 <= p < n && s.stack[p] == b
  {
    if n > 0 {
      HolderAt(s, n - 1, b);
      if p :| 0 <= p < n && s.stack[p] == b {
        assert p == n - 1 || p < n - 1;
      }
    }
  }

  /** At most NPROC stacks are outstanding, and they are exactly those the slots hold. */
  lemma StacksBounded(s: Sched)
    requires SchedOk(s)
    ensures s.blocks == Holders(s, NPROC) && |s.blocks| <= NPROC
  {
    HoldersAre(s, NPROC);
    forall b ensures b in s.blocks <==> b in Holders(s, NPROC) {
      if b in s.blocks {
        var p :| 0 <= p < NPROC && s.stack[p] == b;
      }
    }
  }
}
