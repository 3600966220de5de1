/**
 What holds along every run of the actor system.
 */
module ActorRuns {
  import opened Mailbox
  import opened ReadyList
  import opened Actors
  import opened ActorInvariant

  /** One step of a run: by the actor whose process is current, or by anyone else. */
  datatype Move = By(i: nat, step: Step) | Other(e: Env)

  ghost predicate Can(w: World, m: Move) {
    match m
    case By(i, step) => Enabled(w, i, step)
    case Other(e) => EnvEnabled(w, e)
  }

  ghost function Do(w: World, m: Move): World
    requires Inv(w) && Can(w, m)
  {
    match m
    case By(i, step) => Next(w, i, step)
    case Other(e) => EnvNext(w, e)
  }

  lemma DoOk(w: World, m: Move)
    requires Inv(w) && Can(w, m)
    ensures Inv(Do(w, m))
  {
    hide Inv, Next, EnvNext;
    match m
    case By(i, step) => StepOk(w, i, step);
    case Other(e) => EnvOk(w, e);
  }

  /** Freshly booted, no actors. */
  function Start(): World {
    World(Boot(), [], {}, 0, map[], 0, 0, 0, 0, Drops(0, 0, 0))
  }

  lemma StartOk()
    ensures Inv(Start())
  {
    BootOk();
    assert forall i :: !Live(Start(), i);
  }

  /** Every step of `ms` can be taken when its turn comes. */
  ghost predicate Possible(w: World, ms: seq<Move>)
    requires Inv(w)
    decreases |ms|
  {
    ms == [] || (Can(w, ms[0]) && (DoOk(w, ms[0]); Possible(Do(w, ms[0]), ms[1..])))
  }

  ghost function End(w: World, ms: seq<Move>): World
    requires Inv(w) && Possible(w, ms)
    decreases |ms|
  {
    if ms == [] then w else (DoOk(w, ms[0]); End(Do(w, ms[0]), ms[1..]))
  }

  /** The invariant holds in every reachable state. */
  lemma {:induction false} AlwaysOk(w: World, ms: seq<Move>)
    requires Inv(w) && Possible(w, ms)
    ensures Inv(End(w, ms))
    decreases |ms|
  {
    hide Inv, Do;
    if ms != [] {
      DoOk(w, ms[0]);
      AlwaysOk(Do(w, ms[0]), ms[1..]);
    }
  }

  // ---------- synchronous calls ----------

  /** In `ap_recv`, whatever is taken is not a reply. */
  lemma RecvTakesNoReply(w: World, i: nat)
    requires Inv(w) && Enabled(w, i, DoRecv)
    ensures forall k :: 0 <= k < |w.acts[i].box| ==> w.acts[i].box[k].meth != AP_REPLY
  {
    hide SchedOk, ActorsOk, CallsOk;
    forall k | 0 <= k < |w.acts[i].box| ensures w.acts[i].box[k].meth != AP_REPLY {
      if w.acts[i].box[k].meth == AP_REPLY {
        ReplyMeansCall(w, i, k);
      }
    }
  }

  /** The message with which `ap_call` returns. */
  ghost predicate Returns(w: World, i: nat, m: Msg)
    requires Inv(w)
  {
    && Enabled(w, i, DoScan) && Calling(w.acts[i].ctl) >= 0
    && var k := FirstWanted(w.acts[i].box, w.acts[i].ctl.wants, 0);
       k < |w.acts[i].box| && m == w.acts[i].box[k]
  }

  /** What a call returns is the result recorded for that very call. */
  lemma CallReturnsItsResult(w: World, i: nat, m: Msg)
    requires Inv(w) && Returns(w, i, m)
    ensures m.meth == AP_REPLY && m.tag == Calling(w.acts[i].ctl)
    ensures m.tag in w.results && m.a0 == w.results[m.tag]
    ensures Calling(Next(w, i, DoScan).acts[i].ctl) < 0
  {
    hide SchedOk, ActorsOk, CallsOk;
    var k := FirstWanted(w.acts[i].box, w.acts[i].ctl.wants, 0);
    assert SlotOk(w.acts[i], w.nextTag, w.results);
    ReplyMeansCall(w, i, k);
  }

  /** Actor `i`'s handler of the call `t` ended with `v`, by returning it or by crashing. */
  ghost predicate Concludes(w: World, m: Move, t: nat, v: int) {
    && m.By? && Can(w, m) && w.acts[m.i].ctl.Handle?
    && w.acts[m.i].ctl.m.tag == t && w.acts[m.i].ctl.m.replyTo >= 0
    && (m.step == DoReturn(v) || (m.step == DoCrash && v == AP_CRASH_REPLY))
  }

  ghost predicate ConcludedIn(w: World, ms: seq<Move>, t: nat, v: int)
    requires Inv(w) && Possible(w, ms)
    decreases |ms|
  {
    ms != [] && (Concludes(w, ms[0], t, v) || (DoOk(w, ms[0]); ConcludedIn(Do(w, ms[0]), ms[1..], t, v)))
  }

  lemma PostKeepsResults(w: World, to: int, m: Msg)
    requires |w.s.st| == NPROC
    ensures Post(w, to, m).results == w.results
  {
  }

  /** Results are only ever added, each by the handler of its call, and never change. */
  lemma ResultsGrow(w: World, m: Move, t: nat)
    requires Inv(w) && Can(w, m)
    ensures t in w.results ==> t in Do(w, m).results && Do(w, m).results[t] == w.results[t]
    ensures t !in w.results && t in Do(w, m).results ==> Concludes(w, m, t, Do(w, m).results[t])
  {
    hide SchedOk, ActorsOk, CallsOk, ProcsOk, CountsOk, Post, SlotOk;
    SchedSize(w.s);
    match m
    case Other(e) => EnvKeepsResults(w, e);
    case By(i, DoReturn(r)) => FinishResults(w, i, r);
    case By(i, DoCrash) => FinishResults(w, i, AP_CRASH_REPLY);
    case By(i, DoSend(to, x)) => PostKeepsResults(w, to, x.(replyTo := -1, tag := 0));
    case By(i, DoCall(to, x)) =>
      PostKeepsResults(SetCtl(w, i, Select(w.acts[i].ctl.m, [AP_REPLY], w.nextTag)).(nextTag := w.nextTag + 1), to, x.(replyTo := i, tag := w.nextTag));
    case By(i, step) =>
      assert Next(w, i, step).results == w.results;
  }

  lemma EnvKeepsResults(w: World, e: Env)
    requires Inv(w) && EnvEnabled(w, e)
    ensures EnvNext(w, e).results == w.results
  {
    hide SchedOk, ActorsOk, ProcsOk, SlotsOk, CallsOk, CountsOk, FreeActor, Create, MakeReady, Kill;
    SchedSize(w.s);
    match e
    case Sends(to, m) => PostKeepsResults(w, to, m.(replyTo := -1, tag := 0));
    case _ =>
  }

  lemma FinishResults(w: World, i: nat, r: int)
    requires Inv(w) && Live(w, i) && w.acts[i].ctl.Handle?
    ensures var m := w.acts[i].ctl.m;
            StepFinish(w, i, r).results == if m.replyTo < 0 then w.results else w.results[m.tag := r]
    ensures w.acts[i].ctl.m.replyTo >= 0 ==> w.acts[i].ctl.m.tag !in w.results
  {
    hide ActorsOk, CallsOk, ProcsOk, CountsOk;
    assert SlotOk(w.acts[i], w.nextTag, w.results);
  }

  /** A recorded result was concluded by a handler somewhere along the run. */
  lemma {:induction false} ResultsComeFromHandlers(w: World, ms: seq<Move>, t: nat)
    requires Inv(w) && Possible(w, ms)
    ensures t in w.results ==> t in End(w, ms).results && End(w, ms).results[t] == w.results[t]
    ensures t !in w.results && t in End(w, ms).results ==> ConcludedIn(w, ms, t, End(w, ms).results[t])
    decreases |ms|
  {
    hide Inv, Do, Concludes;
    if ms != [] {
      DoOk(w, ms[0]);
      ResultsGrow(w, ms[0], t);
      ResultsComeFromHandlers(Do(w, ms[0]), ms[1..], t);
    }
  }

  /**
   The value a synchronous call returns, in any run from a state without calls, is what the
   handler of that same call returned, or the crash sentinel if that handler crashed.
   */
  lemma CallValue(w: World, ms: seq<Move>, i: nat, m: Msg)
    requires Inv(w) && w.results == map[] && Possible(w, ms) && Inv(End(w, ms)) && Returns(End(w, ms), i, m)
    ensures Calling(End(w, ms).acts[i].ctl) == m.tag && ConcludedIn(w, ms, m.tag, m.a0)
  {
    hide Inv;
    CallReturnsItsResult(End(w, ms), i, m);
    ResultsComeFromHandlers(w, ms, m.tag);
  }

  // ---------- lock ----------

  /** Leaving a handler gives the lock up entirely. */
  lemma LeaveUnlocks(w: World, i: nat)
    requires Inv(w) && Enabled(w, i, DoLeave)
    ensures Next(w, i, DoLeave).s.owner == -1 && Next(w, i, DoLeave).s.depth == 0
  {
    hide CallsOk, ProcsOk, CountsOk, SlotsOk, QueueOk, StacksOk;
    assert ActorOk(w.s, w.acts[i]);
    SchedSize(w.s);
  }

  /** Actor `i` gave up the lock in the middle of `c`, a select, when it held it `d` times. */
  ghost predicate Suspended(w: World, i: nat, pid: int, c: Ctl, d: nat) {
    && c.Select? && Live(w, i) && w.acts[i].pid == pid
    && (w.acts[i].ctl == Parked(c.m, c.wants, c.call, d) || w.acts[i].ctl == Relocked(c.m, c.wants, c.call, d))
  }

  /** Actor `i` finds nothing wanted and gives up the lock. */
  ghost predicate Parks(w: World, i: nat) {
    Enabled(w, i, DoScan) && FirstWanted(w.acts[i].box, w.acts[i].ctl.wants, 0) == |w.acts[i].box|
  }

  lemma ParkSuspends(w: World, i: nat)
    requires Inv(w) && Parks(w, i)
    ensures w.s.depth >= 1 && Next(w, i, DoScan).s.owner == -1
    ensures Suspended(Next(w, i, DoScan), i, w.acts[i].pid, w.acts[i].ctl, w.s.depth)
  {
    hide CallsOk, ProcsOk, CountsOk, SlotsOk, QueueOk, StacksOk;
    assert ActorOk(w.s, w.acts[i]);
    SchedSize(w.s);
  }

  lemma PostKeepsCtl(w: World, to: int, m: Msg, i: nat)
    requires |w.s.st| == NPROC && i < |w.acts|
    ensures var w' := Post(w, to, m);
            i < |w'.acts| && w'.acts[i].ctl == w.acts[i].ctl && w'.acts[i].pid == w.acts[i].pid
  {
    hide MakeReady;
  }

  /** Nobody moves another actor's process along, nor takes its slot. */
  lemma OthersKeepCtl(w: World, m: Move, i: nat)
    requires Inv(w) && Can(w, m) && Live(w, i) && !(m.By? && m.i == i)
    ensures Live(Do(w, m), i)
    ensures Do(w, m).acts[i].ctl == w.acts[i].ctl && Do(w, m).acts[i].pid == w.acts[i].pid
  {
    hide SchedOk, ActorsOk, ProcsOk, SlotsOk, CallsOk, CountsOk, Post;
    SchedSize(w.s);
    match m
    case Other(e) => EnvKeepsCtl(w, e, i);
    case By(j, DoReturn(r)) => FinishKeepsCtl(w, j, r, i);
    case By(j, DoCrash) => FinishKeepsCtl(w, j, AP_CRASH_REPLY, i);
    case By(j, DoSend(to, x)) => PostKeepsCtl(w, to, x.(replyTo := -1, tag := 0), i);
    case By(j, DoCall(to, x)) =>
      PostKeepsCtl(SetCtl(w, j, Select(w.acts[j].ctl.m, [AP_REPLY], w.nextTag)).(nextTag := w.nextTag + 1), to, x.(replyTo := j, tag := w.nextTag), i);
    case By(j, step) =>
  }

  lemma FinishKeepsCtl(w: World, j: nat, r: int, i: nat)
    requires SchedOk(w.s) && j < |w.acts| && w.acts[j].ctl.Handle? && i < |w.acts| && i != j
    ensures var w' := StepFinish(w, j, r);
            i < |w'.acts| && w'.acts[i].ctl == w.acts[i].ctl && w'.acts[i].pid == w.acts[i].pid
  {
    hide SchedOk, Post;
    SchedSize(w.s);
    var m := w.acts[j].ctl.m;
    PostKeepsCtl(SetCtl(w, j, Leave).(results := w.results[m.tag := r]), m.replyTo, Msg(AP_REPLY, r, 0, 0, 0, -1, m.tag), i);
  }

  lemma EnvKeepsCtl(w: World, e: Env, i: nat)
    requires Inv(w) && EnvEnabled(w, e) && Live(w, i)
    ensures Live(EnvNext(w, e), i)
    ensures EnvNext(w, e).acts[i].ctl == w.acts[i].ctl && EnvNext(w, e).acts[i].pid == w.acts[i].pid
  {
    hide SchedOk, ActorsOk, ProcsOk, SlotsOk, CallsOk, CountsOk, Create, MakeReady, Kill, Post;
    SchedSize(w.s);
    match e
    case Sends(to, m) => PostKeepsCtl(w, to, m.(replyTo := -1, tag := 0), i);
    case _ =>
  }

  /** Until it restores the lock, an actor that gave it up stays suspended as it was. */
  lemma StaysSuspended(w: World, m: Move, i: nat, pid: int, c: Ctl, d: nat)
    requires Inv(w) && Can(w, m) && Suspended(w, i, pid, c, d) && m != By(i, DoRestore)
    ensures Suspended(Do(w, m), i, pid, c, d)
  {
    hide SchedOk, ActorsOk, ProcsOk, SlotsOk, CallsOk, CountsOk, CanLock, Lock, Resched;
    SchedSize(w.s);
    if m.By? && m.i == i {
      assert m.step == DoRelock;
    } else {
      OthersKeepCtl(w, m, i);
    }
  }

  lemma RestoreResumes(w: World, i: nat, pid: int, c: Ctl, d: nat)
    requires Inv(w) && Can(w, By(i, DoRestore)) && Suspended(w, i, pid, c, d)
    ensures var w' := Do(w, By(i, DoRestore));
            i < |w'.acts| && w'.s.owner == pid && w'.s.depth == d && w'.acts[i].ctl == c && w'.acts[i].pid == pid
  {
    hide CallsOk, ProcsOk, CountsOk, SlotsOk, QueueOk, StacksOk;
    assert ActorOk(w.s, w.acts[i]);
    SchedSize(w.s);
  }

  lemma {:induction false} SuspendedRun(w: World, ms: seq<Move>, i: nat, pid: int, c: Ctl, d: nat)
    requires Inv(w) && Suspended(w, i, pid, c, d) && Possible(w, ms)
    requires ms != [] && ms[|ms| - 1] == By(i, DoRestore) && By(i, DoRestore) !in ms[..|ms| - 1]
    ensures var w' := End(w, ms);
            i < |w'.acts| && w'.s.owner == pid && w'.s.depth == d && w'.acts[i].ctl == c && w'.acts[i].pid == pid
    decreases |ms|
  {
    hide Inv, Do, Can, Suspended;
    DoOk(w, ms[0]);
    if |ms| == 1 {
      RestoreResumes(w, i, pid, c, d);
      assert ms[1..] == [];
    } else {
      assert ms[0] in ms[..|ms| - 1];
      StaysSuspended(w, ms[0], i, pid, c, d);
      assert ms[1..][..|ms| - 2] == ms[1..|ms| - 1];
      SuspendedRun(Do(w, ms[0]), ms[1..], i, pid, c, d);
    }
  }

  /**
   In every run from an actor's giving up the lock inside a handler to its restoring it, whoever
   ran, called, crashed or spawned in between, the actor's process ends up owning the lock to the
   depth it had, at the point of its handler where it was.
   */
  lemma ParkThenRestore(w: World, ms: seq<Move>, i: nat)
    requires Inv(w) && Parks(w, i) && Possible(w, ms)
    requires |ms| >= 2 && ms[0] == By(i, DoScan) && ms[|ms| - 1] == By(i, DoRestore)
    requires By(i, DoRestore) !in ms[..|ms| - 1]
    ensures var w' := End(w, ms);
            && i < |w'.acts| && w'.acts[i].pid == w.acts[i].pid && w'.acts[i].ctl == w.acts[i].ctl
            && w'.s.owner == w.acts[i].pid && w'.s.depth == w.s.depth >= 1
  {
    hide Inv, Suspended, Next;
    DoOk(w, ms[0]);
    ParkSuspends(w, i);
    assert By(i, DoRestore) !in ms[1..|ms| - 1];
    assert ms[1..][..|ms| - 2] == ms[1..|ms| - 1];
    SuspendedRun(Do(w, ms[0]), ms[1..], i, w.acts[i].pid, w.acts[i].ctl, w.s.depth);
  }

  // ---------- when the pump stops ----------

  /** Some live actor has mail it has not been asked to wait for, or has not settled. */
  ghost predicate Busy(w: World, i: int)
    requires |w.s.st| == NPROC
  {
    && Live(w, i) && 0 < w.acts[i].pid < NPROC
    && ((!w.acts[i].waiting && w.acts[i].box != []) || w.s.st[w.acts[i].pid] != Wait)
  }

  /** An actor is busy exactly when it is live and does not wait. */
  lemma BusyIff(w: World, i: int)
    requires Inv(w) && |w.s.st| == NPROC
    ensures Busy(w, i) <==> Live(w, i) && !w.acts[i].waiting
  {
    hide SlotsOk, CallsOk, CountsOk, ProcsOk;
    if Live(w, i) {
      assert ActorOk(w.s, w.acts[i]);
    }
  }

  /** One sweep of `ap_run` over the actor table. */
  method Sweep(w: World) returns (busy: bool)
    requires Inv(w)
    ensures busy <==> exists i :: Busy(w, i)
  {
    busy := false;
    var i := 0;
    ghost var witnessed := 0;
    while i < |w.acts|
      invariant 0 <= i <= |w.acts|
      invariant busy ==> Busy(w, witnessed)
      invariant !busy ==> forall j :: 0 <= j < i ==> !Busy(w, j)
    {
      assert ActorOk(w.s, w.acts[i]);
      if w.acts[i].pid > 0 {
        if !w.acts[i].waiting && w.acts[i].box != [] {
          busy, witnessed := true, i;
        }
        if w.s.st[w.acts[i].pid] != Wait {
          busy, witnessed := true, i;
        }
      }
      i := i + 1;
    }
  }

  /** When the sweep finds nothing busy, no live actor has a message it would take. */
  lemma QuietMeansDrained(w: World, i: nat)
    requires Inv(w) && Live(w, i) && forall j :: !Busy(w, j)
    ensures w.acts[i].waiting && (w.acts[i].ctl.Recv? || w.acts[i].ctl.Parked?)
    ensures w.acts[i].ctl.Recv? ==> w.acts[i].box == []
    ensures w.acts[i].ctl.Parked? ==> forall k :: 0 <= k < |w.acts[i].box| ==> w.acts[i].box[k].meth !in w.acts[i].ctl.wants
  {
    assert ActorOk(w.s, w.acts[i]);
    assert !Busy(w, i);
    NoLostWakeup(w, i);
  }

  // ---------- in every state a run from boot can reach ----------

  ghost predicate Reachable(w: World) {
    StartOk();
    exists ms :: Possible(Start(), ms) && End(Start(), ms) == w
  }

  lemma ReachableOk(w: World)
    requires Reachable(w)
    ensures Inv(w)
  {
    hide Inv, Possible, End;
    StartOk();
    var ms :| Possible(Start(), ms) && End(Start(), ms) == w;
    AlwaysOk(Start(), ms);
  }

  /** An actor's process waits iff its flag is set, and none sleeps on a message it would accept. */
  lemma ReachableWakeups(w: World, i: nat)
    requires Reachable(w) && Live(w, i)
    ensures var a := w.acts[i];
            && |w.s.st| == NPROC && 0 < a.pid < NPROC && (w.s.st[a.pid] == Wait <==> a.waiting)
            && (a.waiting ==> a.ctl.Recv? || a.ctl.Parked?)
            && (a.waiting && a.ctl.Recv? ==> a.box == [])
            && (a.waiting && a.ctl.Parked? ==> forall k :: 0 <= k < |a.box| ==> a.box[k].meth !in a.ctl.wants)
  {
    hide Reachable, SlotsOk, CallsOk, CountsOk, ProcsOk;
    ReachableOk(w);
    SchedSize(w.s);
    assert ActorOk(w.s, w.acts[i]);
    NoLostWakeup(w, i);
  }

  /** No two actors run a handler with the lock. */
  lemma ReachableHandlers(w: World, i: nat, j: nat)
    requires Reachable(w) && Live(w, i) && Live(w, j) && Holding(w.acts[i].ctl) && Holding(w.acts[j].ctl)
    ensures i == j
  {
    hide Reachable;
    ReachableOk(w);
    OneHandlerAtATime(w, i, j);
  }

  /** An actor waits for at most one request or reply, that of the call it is in. */
  lemma ReachableCalls(w: World, e: (int, nat), f: (int, nat))
    requires Reachable(w) && e in Outstanding(w.acts, |w.acts|) && f in Outstanding(w.acts, |w.acts|) && e.0 == f.0
    ensures e == f && Outstanding(w.acts, |w.acts|)[e] == 1 && Live(w, e.0) && Calling(w.acts[e.0].ctl) == e.1
  {
    hide Reachable, Outstanding;
    ReachableOk(w);
    OneOutstanding(w, e, f);
  }

  /** Every message posted since boot was taken, discarded with its slot, is queued, or was dropped for one counted reason. */
  lemma ReachableCounts(w: World)
    requires Reachable(w)
    ensures w.posts == w.taken + w.discarded + Queued(w.acts, |w.acts|) + w.drops.Total()
  {
    hide Reachable, SchedOk, ActorsOk, ProcsOk, SlotsOk, CallsOk;
    ReachableOk(w);
  }

  /** When a sweep finds nothing busy, no actor has a message it would take. */
  lemma ReachableQuiet(w: World, i: nat)
    requires Reachable(w) && |w.s.st| == NPROC && Live(w, i) && forall j :: !Busy(w, j)
    ensures w.acts[i].waiting
    ensures w.acts[i].ctl.Recv? ==> w.acts[i].box == []
    ensures w.acts[i].ctl.Parked? ==> forall k :: 0 <= k < |w.acts[i].box| ==> w.acts[i].box[k].meth !in w.acts[i].ctl.wants
  {
    hide Reachable;
    ReachableOk(w);
    QuietMeansDrained(w, i);
  }
}
