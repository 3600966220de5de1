/**
 The process table as the kernel keeps it: an array of slots, with the ready list threaded
 through their `next` fields.
 */
module Proc {
  import opened Lists
  import opened ReadyList

  /** `next` is the slot after this one on the ready list, -1 at the end. */
  datatype Procent = Procent(state: PState, stack: int, next: int)

  class Scheduler {
    const proctab: array<Procent>
    var head: int
    var tail: int
    var currpid: nat
    var owner: int
    var depth: nat

    /** The ready list, first to last. */
    ghost var q: seq<nat>
    ghost var blocks: set<int>

    ghost function View(): Sched
      reads this, proctab
    {
      Sched(States(proctab[..]), q, currpid, owner, depth, Stacks(proctab[..]), blocks)
    }

    ghost predicate Valid()
      reads this, proctab
    {
      proctab.Length == NPROC && SchedOk(View()) && Threaded(proctab[..], head, tail, q)
    }

    /** The boot context runs, every other slot is free. */
    constructor ()
      ensures Valid() && fresh(proctab) && View() == Boot()
    {
      proctab := new Procent[NPROC](i => if i == NULLPROC then Procent(Curr, 0, -1) else Procent(Free, 0, -1));
      head, tail, currpid, owner, depth := -1, -1, NULLPROC, -1, 0;
      q, blocks := [], {};
      new;
      assert View() == Boot();
      BootOk();
    }

    method ReadyPush(p: nat)
      requires proctab.Length == NPROC && p < NPROC && p !in q && Distinct(q) && Threaded(proctab[..], head, tail, q)
      modifies this`head, this`tail, this`q, proctab
      ensures q == old(q) + [p] && Threaded(proctab[..], head, tail, q)
      ensures States(proctab[..]) == old(States(proctab[..])) && Stacks(proctab[..]) == old(Stacks(proctab[..]))
    {
      ghost var t := proctab[..];
      PushThreaded(t, head, tail, q, p);
      proctab[p] := proctab[p].(next := -1);
      if head < 0 {
        head, tail := p, p;
      } else {
        proctab[tail] := proctab[tail].(next := p);
        tail := p;
      }
      assert proctab[..] == Pushed(t, old(tail), p);
      q := q + [p];
    }

    method ReadyPop() returns (p: int)
      requires proctab.Length == NPROC && Distinct(q) && Threaded(proctab[..], head, tail, q)
      modifies this`head, this`tail, this`q, proctab
      ensures old(q) == [] ==> p == -1 && q == []
      ensures old(q) != [] ==> p == old(q)[0] && q == old(q)[1..]
      ensures Threaded(proctab[..], head, tail, q)
      ensures States(proctab[..]) == old(States(proctab[..])) && Stacks(proctab[..]) == old(Stacks(proctab[..]))
    {
      ghost var t := proctab[..];
      p := head;
      if p < 0 {
        return;
      }
      PopThreaded(t, head, tail, q);
      head := proctab[p].next;
      if head < 0 {
        tail := -1;
      }
      proctab[p] := proctab[p].(next := -1);
      assert proctab[..] == t[p := t[p].(next := -1)];
      q := q[1..];
    }

    /** Unlink a slot from wherever it is in the list. */
    method ReadyRemove(p: nat)
      requires proctab.Length == NPROC && p < NPROC && Distinct(q) && Threaded(proctab[..], head, tail, q)
      modifies this`head, this`tail, this`q, proctab
      ensures q == Without(old(q), p) && Threaded(proctab[..], head, tail, q)
      ensures States(proctab[..]) == old(States(proctab[..])) && Stacks(proctab[..]) == old(Stacks(proctab[..]))
    {
      hide Without, Threaded, Distinct, States, Stacks, Unlinked;
      ghost var t := proctab[..];
      var prev, curr := -1, head;
      ghost var k := 0;
      HeadIs(t, head, tail, q);
      while curr >= 0 && curr != p
        invariant 0 <= k <= |q| && p !in q[..k]
        invariant curr == (if k < |q| then q[k] else -1)
        invariant prev == (if k > 0 then q[k - 1] else -1)
        decreases |q| - k
        modifies {}
      {
        assert q[..k + 1] == q[..k] + [q[k]];
        NextIs(t, head, tail, q, k);
        prev, curr := curr, proctab[curr].next;
        k := k + 1;
      }
      WithoutAt(q, p, k);
      if curr < 0 {
        assert proctab[..] == t;
        return;
      }
      NextIs(t, head, tail, q, k);
      RemoveThreaded(t, head, tail, q, k);
      if prev >= 0 {
        proctab[prev] := proctab[prev].(next := proctab[curr].next);
      } else {
        head := proctab[curr].next;
      }
      if tail == curr {
        tail := prev;
      }
      proctab[curr] := proctab[curr].(next := -1);
      UnlinkedIs(t, q, k);
      assert proctab[..] == Unlinked(t, q, k);
      q := q[..k] + q[k + 1..];
    }

    /** Change a slot's state; the links stay as they are. */
    method SetState(p: nat, st: PState)
      requires proctab.Length == NPROC && p < NPROC && Threaded(proctab[..], head, tail, q)
      modifies proctab
      ensures Threaded(proctab[..], head, tail, q)
      ensures States(proctab[..]) == old(States(proctab[..]))[p := st] && Stacks(proctab[..]) == old(Stacks(proctab[..]))
    {
      ghost var t := proctab[..];
      proctab[p] := proctab[p].(state := st);
      assert proctab[..] == t[p := t[p].(state := st)];
      SlotChanged(t, p, t[p].(state := st), head, tail, q);
    }

    method SetStack(p: nat, block: int)
      requires proctab.Length == NPROC && p < NPROC && Threaded(proctab[..], head, tail, q)
      modifies proctab
      ensures Threaded(proctab[..], head, tail, q)
      ensures Stacks(proctab[..]) == old(Stacks(proctab[..]))[p := block] && States(proctab[..]) == old(States(proctab[..]))
    {
      ghost var t := proctab[..];
      proctab[p] := proctab[p].(stack := block);
      assert proctab[..] == t[p := t[p].(stack := block)];
      SlotChanged(t, p, t[p].(stack := block), head, tail, q);
    }

    method AllocSlot() returns (p: nat)
      requires proctab.Length == NPROC
      ensures p == FreeSlot(States(proctab[..]), 1)
    {
      p := 1;
      while p < NPROC && proctab[p].state != Free
        invariant 1 <= p <= NPROC && FreeSlot(States(proctab[..]), p) == FreeSlot(States(proctab[..]), 1)
      {
        p := p + 1;
      }
    }

    // ---------- the kernel's calls ----------

    /**
     New process in the lowest free slot. `block` is what the heap hands out for the stack, after
     the stack a previous occupant could not free itself has gone back (`freed`, 0 if none).
     */
    method ProcCreate(block: int) returns (pid: int, freed: int)
      requires Valid() && block !in InUse(View())
      modifies this, proctab
      ensures Valid() && View() == Create(old(View()), block)
      ensures pid == -1 || (0 < pid < NPROC && old(View()).st[pid] == Free && View().st[pid] == Ready && View().stack[pid] == block)
      ensures pid == -1 <==> block == 0 || FreeSlot(old(View()).st, 1) == NPROC
      ensures freed != 0 ==> freed in old(View()).blocks
    {
      hide Threaded, States, Stacks, SchedOk, Create, InUse, Distinct, FreeSlot;
      CreateOk(View(), block);
      CreateIs(View(), block);
      var p := AllocSlot();
      if p >= NPROC {
        return -1, 0;
      }
      freed := proctab[p].stack;
      StackAt(proctab[..], p);
      FreeIsNotQueued(View(), p);
      SetStack(p, 0);
      blocks := blocks - {freed};
      if block == 0 {
        return -1, freed;
      }
      SetState(p, Ready);
      SetStack(p, block);
      blocks := blocks + {block};
      ReadyPush(p);
      pid := p;
      assert View().stack == old(View()).stack[p := block];
    }

    method ProcReady(pid: int)
      requires Valid()
      modifies this, proctab
      ensures Valid() && View() == MakeReady(old(View()), pid)
    {
      hide Threaded, States, Stacks, SchedOk, Without, Distinct;
      MakeReadyOk(View(), pid);
      if pid <= 0 || pid >= NPROC {
        return;
      }
      StateAt(proctab[..], pid);
      if proctab[pid].state == Ready || proctab[pid].state == Curr {
        return;
      }
      ReadyIsQueued(View(), pid);
      SetState(pid, Ready);
      ReadyPush(pid);
    }

    /** Take the next ready process, or NULLPROC, and make it run. */
    method SwitchTo(p: int)
      requires proctab.Length == NPROC && -1 <= p < NPROC && Threaded(proctab[..], head, tail, q)
      modifies this`currpid, proctab
      ensures Threaded(proctab[..], head, tail, q)
      ensures currpid == (if p < 0 then NULLPROC else p)
      ensures States(proctab[..]) == old(States(proctab[..]))[currpid := Curr] && Stacks(proctab[..]) == old(Stacks(proctab[..]))
    {
      currpid := if p < 0 then NULLPROC else p;
      SetState(currpid, Curr);
    }

    method ProcResched()
      requires Valid()
      modifies this, proctab
      ensures Valid() && View() == Resched(old(View()))
    {
      hide Threaded, States, Stacks, SchedOk, Without, Distinct;
      ReschedOk(View());
      QueueFacts(View());
      var p := ReadyPop();
      if p < 0 {
        return;
      }
      assert (old(q) + [currpid])[1..] == q + [currpid];
      StateAt(proctab[..], currpid);
      if proctab[currpid].state == Curr && currpid != NULLPROC {
        SetState(currpid, Ready);
        ReadyPush(currpid);
      }
      SwitchTo(p);
    }

    /** The timer's way in: a real process loses the processor if preemption is on and due. */
    method ProcPreempt(on: bool, pending: bool, pump: bool) returns (stillPending: bool)
      requires Valid()
      modifies this, proctab
      ensures Valid()
      ensures View() == if on && pending && !pump && old(currpid) != NULLPROC then Resched(old(View())) else old(View())
      ensures stillPending == (pending && !(on && !pump))
    {
      if !on || !pending || pump {
        return pending;
      }
      if currpid != NULLPROC {
        ProcResched();
      }
      return false;
    }

    method ProcBlock()
      requires Valid()
      modifies this, proctab
      ensures View() == Block(old(View())) && Threaded(proctab[..], head, tail, q)
      ensures Valid() <==> !Stranding(old(View()))
    {
      hide Threaded, States, Stacks, SchedOk, Without, Distinct;
      BlockOk(View());
      QueueFacts(View());
      SetState(currpid, Wait);
      var p := ReadyPop();
      SwitchTo(p);
    }

    /** Reap a process that is not running; its stack goes back to the heap. */
    method ProcKill(pid: int) returns (freed: int)
      requires Valid()
      modifies this, proctab
      ensures Valid() && View() == Kill(old(View()), pid)
      ensures freed != 0 ==> freed in old(View()).blocks && freed !in View().blocks
    {
      hide Threaded, States, Stacks, SchedOk, Without, Distinct, Kill;
      KillIs(View(), pid);
      KillOk(View(), pid);
      QueueFacts(View());
      if pid <= 0 || pid >= NPROC || pid == currpid {
        return 0;
      }
      StateAt(proctab[..], pid);
      if proctab[pid].state == Free {
        return 0;
      }
      StackAt(proctab[..], pid);
      HeldBlock(View(), pid);
      ReadyRemove(pid);
      if owner == pid {
        owner, depth := -1, 0;
      }
      StackAt(proctab[..], pid);
      freed := proctab[pid].stack;
      SetStack(pid, 0);
      SetState(pid, Free);
      blocks := blocks - {freed};
    }

    method ProcExit()
      requires Valid()
      modifies this, proctab
      ensures View() == Exit(old(View())) && Threaded(proctab[..], head, tail, q)
      ensures Valid() <==> !Stranding(old(View()))
    {
      hide Threaded, States, Stacks, SchedOk, Without, Distinct;
      ExitOk(View());
      QueueFacts(View());
      SetState(currpid, Free);
      ReadyRemove(currpid);
      var p := ReadyPop();
      SwitchTo(p);
    }

    // ---------- the heap lock ----------

    /** One round of the spin: take the lock if it is free or already ours, else yield. */
    method TryLock() returns (got: bool)
      requires Valid()
      modifies this, proctab
      ensures Valid() && got == CanLock(old(View()))
      ensures View() == if got then Lock(old(View())) else Resched(old(View()))
    {
      hide Threaded, States, Stacks, SchedOk, Without, Distinct;
      LockKeeps(View());
      got := owner < 0 || owner == currpid;
      if got {
        owner, depth := currpid, depth + 1;
      } else {
        ProcResched();
      }
    }

    method AiplUnlock()
      requires Valid()
      modifies this
      ensures Valid() && View() == Unlock(old(View()))
    {
      hide Threaded, States, Stacks, SchedOk, Without, Distinct;
      LockKeeps(View());
      if owner == currpid {
        var d: int := depth - 1;
        if d <= 0 {
          owner, depth := -1, 0;
        } else {
          depth := d;
        }
      }
    }

    method AiplUnlockAll() returns (saved: nat)
      requires Valid()
      modifies this
      ensures Valid() && View() == UnlockAll(old(View())) && saved == Held(old(View()))
    {
      hide Threaded, States, Stacks, SchedOk, Without, Distinct;
      LockKeeps(View());
      saved := 0;
      if owner == currpid {
        saved, owner, depth := depth, -1, 0;
      }
    }
  }

  // ---------- the list as a sequence ----------

  ghost function States(t: seq<Procent>): (r: seq<PState>)
    ensures |r| == |t| && forall i :: 0 <= i < |t| ==> r[i] == t[i].state
  {
    seq(|t|, i requires 0 <= i < |t| => t[i].state)
  }

  ghost function Stacks(t: seq<Procent>): (r: seq<int>)
    ensures |r| == |t| && forall i :: 0 <= i < |t| ==> r[i] == t[i].stack
  {
    seq(|t|, i requires 0 <= i < |t| => t[i].stack)
  }

  ghost function Link(q: seq<nat>, i: nat): int {
    if i + 1 < |q| then q[i + 1] else -1
  }

  /** The links spell out `q`. */
  ghost predicate Threaded(t: seq<Procent>, head: int, tail: int, q: seq<nat>) {
    && (forall i :: 0 <= i < |q| ==> q[i] < |t|)
    && (forall i :: 0 <= i < |q| ==> t[q[i]].next == Link(q, i))
    && head == (if q == [] then -1 else q[0])
    && tail == (if q == [] then -1 else q[|q| - 1])
  }

  lemma {:induction false} WithoutAt(q: seq<nat>, p: nat, k: nat)
    requires k <= |q| && Distinct(q) && p !in q[..k] && (k < |q| ==> q[k] == p)
    ensures Without(q, p) == if k < |q| then q[..k] + q[k + 1..] else q
    decreases |q|
  {
    hide Without, Distinct;
    if k == |q| {
      assert q[..k] == q;
      return;
    }
    HeadAndTail(q, p);
    if k == 0 {
      assert q[..0] + q[1..] == q[1..];
    } else {
      NotBefore(q, p, k);
      WithoutAt(q[1..], p, k - 1);
      CutBehindHead(q, k);
    }
  }

  lemma NotBefore(q: seq<nat>, p: nat, k: nat)
    requires 0 < k <= |q| && p !in q[..k]
    ensures q[0] != p && p !in q[1..][..k - 1]
  {
    assert q[..k][0] == q[0];
    assert q[..k] == [q[0]] + q[1..][..k - 1];
  }

  lemma CutBehindHead(q: seq<nat>, k: nat)
    requires 0 < k < |q|
    ensures [q[0]] + (q[1..][..k - 1] + q[1..][k..]) == q[..k] + q[k + 1..]
  {
    assert q[1..][k..] == q[k + 1..];
    assert [q[0]] + q[1..][..k - 1] == q[..k];
  }

  lemma HeadAndTail(q: seq<nat>, p: nat)
    requires q != [] && Distinct(q)
    ensures Distinct(q[1..]) && forall i :: 1 <= i < |q| ==> q[i] != q[0]
    ensures Without(q, p) == if q[0] == p then q[1..] else [q[0]] + Without(q[1..], p)
  {
    assert q[0] !in q[1..];
  }

  lemma SlotChanged(t: seq<Procent>, p: nat, e: Procent, head: int, tail: int, q: seq<nat>)
    requires p < |t| && e.next == t[p].next && Threaded(t, head, tail, q)
    ensures Threaded(t[p := e], head, tail, q)
    ensures States(t[p := e]) == States(t)[p := e.state] && Stacks(t[p := e]) == Stacks(t)[p := e.stack]
    ensures e.state == t[p].state ==> States(t[p := e]) == States(t)
    ensures e.stack == t[p].stack ==> Stacks(t[p := e]) == Stacks(t)
  {
    forall i | 0 <= i < |q| ensures t[p := e][q[i]].next == Link(q, i) {
      assert t[q[i]].next == Link(q, i);
    }
  }

  lemma StateAt(t: seq<Procent>, p: nat)
    requires p < |t|
    ensures States(t)[p] == t[p].state
  {
  }

  lemma StackAt(t: seq<Procent>, p: nat)
    requires p < |t|
    ensures Stacks(t)[p] == t[p].stack
  {
  }

  lemma QueueFacts(s: Sched)
    requires SchedOk(s)
    ensures |s.st| == NPROC && |s.stack| == NPROC && Distinct(s.q) && s.curr < NPROC && s.st[s.curr] == Curr && s.curr !in s.q
    ensures forall p :: p in s.q ==> 0 < p < NPROC
    ensures s.q != [] ==> s.q[0] < NPROC && Distinct(s.q[1..]) && s.curr !in s.q[1..] && s.q[0] !in s.q[1..]
  {
    assert s.q != [] ==> s.q[0] in s.q;
  }

  lemma ReadyIsQueued(s: Sched, p: nat)
    requires SchedOk(s) && p < NPROC && s.st[p] != Ready
    ensures p !in s.q && Distinct(s.q)
  {
  }

  lemma FreeIsNotQueued(s: Sched, p: nat)
    requires SchedOk(s) && p < NPROC && s.st[p] == Free
    ensures p !in s.q && Distinct(s.q) && (s.stack[p] != 0 ==> s.stack[p] in s.blocks)
  {
  }

  lemma HeldBlock(s: Sched, p: nat)
    requires SchedOk(s) && p < NPROC
    ensures s.stack[p] != 0 ==> s.stack[p] in s.blocks
  {
  }

  lemma KillIs(s: Sched, p: int)
    requires |s.st| == NPROC && |s.stack| == NPROC
    ensures Kill(s, p) ==
      if p <= 0 || p >= NPROC || p == s.curr || s.st[p] == Free then s
      else
        s.(st := s.st[p := Free], q := Without(s.q, p),
           owner := if s.owner == p then -1 else s.owner, depth := if s.owner == p then 0 else s.depth,
           stack := s.stack[p := 0], blocks := s.blocks - {s.stack[p]})
  {
  }

  lemma CreateIs(s: Sched, block: int)
    requires |s.st| == NPROC && |s.stack| == NPROC
    ensures var p := FreeSlot(s.st, 1);
            Create(s, block) ==
              if p == NPROC then s
              else if block == 0 then s.(stack := s.stack[p := 0], blocks := s.blocks - {s.stack[p]})
              else s.(st := s.st[p := Ready], q := s.q + [p], stack := s.stack[p := block], blocks := s.blocks - {s.stack[p]} + {block})
  {
  }

  lemma SameSlots(t: seq<Procent>, u: seq<Procent>)
    requires |t| == |u| && forall i :: 0 <= i < |t| ==> t[i].state == u[i].state && t[i].stack == u[i].stack
    ensures States(t) == States(u) && Stacks(t) == Stacks(u)
  {
  }

  ghost function Pushed(t: seq<Procent>, tail: int, p: nat): seq<Procent>
    requires p < |t| && -1 <= tail < |t|
  {
    var u := t[p := t[p].(next := -1)];
    if tail < 0 then u else u[tail := u[tail].(next := p)]
  }

  lemma PushThreaded(t: seq<Procent>, head: int, tail: int, q: seq<nat>, p: nat)
    requires Threaded(t, head, tail, q) && p < |t| && p !in q && Distinct(q)
    ensures -1 <= tail < |t| && Threaded(Pushed(t, tail, p), if q == [] then p else head, p, q + [p])
    ensures States(Pushed(t, tail, p)) == States(t) && Stacks(Pushed(t, tail, p)) == Stacks(t)
  {
    assert forall i :: 0 <= i < |q| ==> q[i] in q;
    SameSlots(t, Pushed(t, tail, p));
  }

  lemma PopThreaded(t: seq<Procent>, head: int, tail: int, q: seq<nat>)
    requires Threaded(t, head, tail, q) && Distinct(q) && q != []
    ensures var u := t[head := t[head].(next := -1)];
            && Threaded(u, t[head].next, if t[head].next < 0 then -1 else tail, q[1..])
            && States(u) == States(t) && Stacks(u) == Stacks(t)
  {
    hide States, Stacks, Distinct, Without;
    SameSlots(t, t[head := t[head].(next := -1)]);
    HeadAndTail(q, head);
    var u := t[head := t[head].(next := -1)];
    var r := q[1..];
    forall i | 0 <= i < |r| ensures u[r[i]].next == Link(r, i) {
      assert t[q[i + 1]].next == Link(q, i + 1);
    }
    assert t[q[0]].next == Link(q, 0);
  }

  ghost function Unlinked(t: seq<Procent>, q: seq<nat>, k: nat): seq<Procent>
    requires k < |q| && forall i :: 0 <= i < |q| ==> q[i] < |t|
  {
    var u := if k == 0 then t else t[q[k - 1] := t[q[k - 1]].(next := t[q[k]].next)];
    u[q[k] := u[q[k]].(next := -1)]
  }

  lemma HeadIs(t: seq<Procent>, head: int, tail: int, q: seq<nat>)
    requires Threaded(t, head, tail, q)
    ensures head == if q == [] then -1 else q[0]
  {
  }

  lemma NextIs(t: seq<Procent>, head: int, tail: int, q: seq<nat>, k: nat)
    requires Threaded(t, head, tail, q) && k < |q|
    ensures q[k] < |t| && t[q[k]].next == Link(q, k)
    ensures k > 0 ==> q[k - 1] < |t|
    ensures Distinct(q) && k > 0 ==> q[k - 1] != q[k]
    ensures forall i :: 0 <= i < |q| ==> q[i] < |t|
  {
  }

  lemma UnlinkedIs(t: seq<Procent>, q: seq<nat>, k: nat)
    requires k < |q| && forall i :: 0 <= i < |q| ==> q[i] < |t|
    requires k > 0 ==> q[k - 1] != q[k]
    ensures var u := Unlinked(t, q, k);
            && |u| == |t|
            && u[q[k]] == t[q[k]].(next := -1)
            && (k > 0 ==> u[q[k - 1]] == t[q[k - 1]].(next := t[q[k]].next))
            && forall x :: 0 <= x < |t| && x != q[k] && (k > 0 ==> x != q[k - 1]) ==> u[x] == t[x]
  {
  }

  lemma RemoveThreaded(t: seq<Procent>, head: int, tail: int, q: seq<nat>, k: nat)
    requires Threaded(t, head, tail, q) && Distinct(q) && k < |q|
    ensures var u := Unlinked(t, q, k);
            var prev := if k > 0 then q[k - 1] as int else -1;
            && Threaded(u, if k > 0 then head else t[q[k]].next, if tail == q[k] then prev else tail, q[..k] + q[k + 1..])
            && States(u) == States(t) && Stacks(u) == Stacks(t)
  {
    hide Unlinked, States, Stacks, Link;
    var u, r := Unlinked(t, q, k), q[..k] + q[k + 1..];
    UnlinkedIs(t, q, k);
    SameSlots(t, u);
    LinkGap(q, k);
    assert t[q[k]].next == Link(q, k);
    forall i | 0 <= i < |r| ensures r[i] < |t| && u[r[i]].next == Link(r, i) {
      var j := if i < k then i else i + 1;
      assert r[i] == q[j] && t[q[j]].next == Link(q, j);
    }
  }

  lemma LinkGap(q: seq<nat>, k: nat)
    requires k < |q|
    ensures var r := q[..k] + q[k + 1..];
            && (k > 0 ==> Link(r, k - 1) == Link(q, k))
            && (forall i :: 0 <= i < k - 1 ==> Link(r, i) == Link(q, i))
            && (forall i :: k <= i < |r| ==> Link(r, i) == Link(q, i + 1))
            && (k == 0 ==> Link(q, k) == if r == [] then -1 else r[0])
  {
  }
}
