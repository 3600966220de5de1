/**
 The actor system as a user of the scheduler: every move is a legal series of scheduler operations,
 so what holds of every run of the scheduler holds here; and a message gets its whole round.
 */
module ActorRounds {
  import opened Mailbox
  import opened ReadyList
  import opened Actors
  import opened ActorInvariant
  import opened ActorRuns
  import opened ActorReplies

  // ---------- moves as scheduler operations ----------

  /** Posting to `to` readies its process if that waits. */
  function WakeOps(w: World, to: int): seq<Op> {
    if Accepts(w, to) && w.acts[to].waiting then [OpReady(w.acts[to].pid)] else []
  }

  function LockOps(w: World): seq<Op> {
    if w.s.owner < 0 || w.s.owner == w.s.curr then [OpLock] else [OpYield]
  }

  /** Taking the lock `n` times. */
  function Again(n: nat): seq<Op> {
    if n == 0 then [] else [OpLock] + Again(n - 1)
  }

  ghost function OpsOf(w: World, m: Move): seq<Op>
    requires Inv(w) && Can(w, m)
  {
    match m
    case By(i, step) => StepOps(w, i, step)
    case Other(e) => EnvOps(w, e)
  }

  ghost function StepOps(w: World, i: nat, step: Step): seq<Op>
    requires Inv(w) && Enabled(w, i, step)
  {
    var a := w.acts[i];
    match step
    case DoRecv => if |a.box| == 0 then [OpBlock] else []
    case DoLock => LockOps(w)
    case DoRelock => LockOps(w)
    case DoSend(to, _) => WakeOps(w, to)
    case DoCall(to, _) => WakeOps(w, to)
    case DoSelect(_) => []
    case DoScan => if exists k :: 0 <= k < |a.box| && a.box[k].meth in a.ctl.wants then [] else [OpUnlockAll, OpBlock]
    case DoRestore => Again(if a.ctl.held >= 1 then a.ctl.held - 1 else 0)
    case DoNest => [OpLock]
    case DoUnnest => [OpUnlock]
    case DoSuicide => []
    case DoReturn(_) => WakeOps(w, a.ctl.m.replyTo)
    case DoCrash => WakeOps(w, a.ctl.m.replyTo)
    case DoLeave => [OpUnlockAll]
    case DoCheck => []
  }

  ghost function EnvOps(w: World, e: Env): seq<Op>
    requires Inv(w) && EnvEnabled(w, e)
  {
    match e
    case Timer => [OpPreempt(true)]
    case GoneExits => [OpExit]
    case NewActor(b) => if |w.acts| >= AP_NACT && (forall j :: 0 <= j < |w.acts| ==> w.acts[j].Live()) then [] else [OpCreate(b)]
    case Sends(to, _) => WakeOps(w, to)
    case Yields => [OpYield]
    case Blocks => [OpBlock]
    case Exits => [OpExit]
    case Wakes(p) => [OpReady(p)]
    case Kills(p) => [OpKill(p)]
    case Creates(b) => [OpCreate(b)]
    case Locks => [OpLock]
    case Unlocks => [OpUnlock]
  }

  lemma NoOp(s: Sched)
    requires SchedOk(s)
    ensures Legal(s, []) && Run(s, []) == s
  {
  }

  lemma OneOp(s: Sched, op: Op)
    requires SchedOk(s) && Allowed(s, op)
    ensures Legal(s, [op]) && Run(s, [op]) == Apply(s, op)
  {
    hide SchedOk, Apply, Allowed;
    ApplyOk(s, op);
    assert [op][1..] == [];
  }

  lemma {:induction false} RunPlus(s: Sched, a: seq<Op>, b: seq<Op>)
    requires SchedOk(s) && Legal(s, a) && SchedOk(Run(s, a)) && Legal(Run(s, a), b)
    ensures Legal(s, a + b) && Run(s, a + b) == Run(Run(s, a), b)
    decreases |a|
  {
    hide SchedOk, Apply, Allowed;
    if |a| == 0 {
      assert a + b == b;
    } else {
      ApplyOk(s, a[0]);
      RunPlus(Apply(s, a[0]), a[1..], b);
      assert (a + b)[1..] == a[1..] + b;
    }
  }

  lemma {:induction false} AgainRuns(s: Sched, n: nat)
    requires SchedOk(s) && s.owner == s.curr
    ensures Legal(s, Again(n)) && Run(s, Again(n)) == s.(depth := s.depth + n)
    decreases n
  {
    if n > 0 {
      LockKeeps(s);
      AgainRuns(Lock(s), n - 1);
      assert Again(n)[1..] == Again(n - 1);
    }
  }

  /** A post readies a waiting reader. */
  lemma PostIsOps(w: World, to: int, m: Msg)
    requires Inv(w)
    ensures SchedOk(w.s) && Legal(w.s, WakeOps(w, to)) && Post(w, to, m).s == Run(w.s, WakeOps(w, to))
  {
    hide SchedOk, CallsOk, CountsOk, ProcsOk, MakeReady, Legal, Run;
    InvSched(w);
    SchedSize(w.s);
    if Accepts(w, to) {
      if w.acts[to].waiting {
        OneOp(w.s, OpReady(w.acts[to].pid));
      } else {
        NoOp(w.s);
      }
    } else {
      PostDrops(w, to, m);
      NoOp(w.s);
    }
  }

  /** An actor that reads its mailbox does not own the lock; one that selects does. */
  lemma WhoOwns(w: World, i: nat)
    requires Inv(w) && Live(w, i) && w.s.curr == w.acts[i].pid
    ensures 0 < w.s.curr && (w.acts[i].ctl.Recv? ==> w.s.owner != w.s.curr)
    ensures w.acts[i].ctl.Select? || w.acts[i].ctl.Relocked? || w.acts[i].ctl.Handle? ==> w.s.owner == w.s.curr
    ensures w.acts[i].ctl.Relocked? ==> w.s.depth == 1 && w.acts[i].ctl.held >= 1
  {
    ActorAt(w, i);
    MineRuns(w, i);
  }

  lemma ParkIsOps(s: Sched)
    requires SchedOk(s) && 0 < s.curr && s.owner == s.curr
    ensures Legal(s, [OpUnlockAll, OpBlock]) && UnlockedBlock(s) == Run(s, [OpUnlockAll, OpBlock])
  {
    hide Legal, Run;
    LockKeeps(s);
    OneOp(s, OpUnlockAll);
    OneOp(UnlockAll(s), OpBlock);
    RunPlus(s, [OpUnlockAll], [OpBlock]);
    assert [OpUnlockAll] + [OpBlock] == [OpUnlockAll, OpBlock];
  }

  lemma WantedIff(c: seq<Msg>, wants: seq<int>)
    ensures FirstWanted(c, wants, 0) < |c| <==> exists k :: 0 <= k < |c| && c[k].meth in wants
  {
    var r := FirstWanted(c, wants, 0);
  }

  lemma StepIsOps(w: World, i: nat, step: Step)
    requires Inv(w) && Enabled(w, i, step)
    ensures SchedOk(w.s) && Legal(w.s, StepOps(w, i, step)) && Next(w, i, step).s == Run(w.s, StepOps(w, i, step))
  {
    hide Inv, SchedOk, Legal, Run, Post, Lock, Unlock, UnlockAll, Resched, Block, UnlockedBlock;
    InvSched(w);
    WhoOwns(w, i);
    NoOp(w.s);
    match step
    case DoRecv => if |w.acts[i].box| == 0 { OneOp(w.s, OpBlock); }
    case DoLock => LockIsOps(w.s);
    case DoRelock => LockIsOps(w.s);
    case DoSend(to, m) => PostIsOps(w, to, m.(replyTo := -1, tag := 0));
    case DoCall(to, m) => CallIsOps(w, i, to, m);
    case DoScan => WantedIff(w.acts[i].box, w.acts[i].ctl.wants); ParkIsOps(w.s);
    case DoRestore => AgainRuns(w.s, w.acts[i].ctl.held - 1);
    case DoNest => OneOp(w.s, OpLock);
    case DoUnnest => OneOp(w.s, OpUnlock);
    case DoReturn(r) => FinishIsOps(w, i, r);
    case DoCrash => FinishIsOps(w, i, AP_CRASH_REPLY);
    case DoLeave => OneOp(w.s, OpUnlockAll);
    case _ =>
  }

  lemma LockIsOps(s: Sched)
    requires SchedOk(s)
    ensures var op := if s.owner < 0 || s.owner == s.curr then OpLock else OpYield;
            Legal(s, [op]) && Run(s, [op]) == if CanLock(s) then Lock(s) else Resched(s)
  {
    hide SchedOk, Legal, Run, Lock, Resched;
    OneOp(s, if s.owner < 0 || s.owner == s.curr then OpLock else OpYield);
  }

  lemma CallIsOps(w: World, i: nat, to: int, m: Msg)
    requires Inv(w) && Enabled(w, i, DoCall(to, m))
    ensures SchedOk(w.s) && Legal(w.s, WakeOps(w, to)) && StepCall(w, i, to, m).s == Run(w.s, WakeOps(w, to))
  {
    hide Inv, SchedOk, Legal, Run, Post, Outstanding;
    InvSched(w);
    var w1 := SetCtl(w, i, Select(w.acts[i].ctl.m, [AP_REPLY], w.nextTag)).(nextTag := w.nextTag + 1);
    CallStarted(w, i, w1);
    PostIsOps(w1, to, m.(replyTo := i, tag := w.nextTag));
    assert WakeOps(w1, to) == WakeOps(w, to);
  }

  lemma FinishIsOps(w: World, i: nat, r: int)
    requires Inv(w) && SchedOk(w.s) && Live(w, i) && w.s.curr == w.acts[i].pid && w.acts[i].ctl.Handle?
    ensures Legal(w.s, WakeOps(w, w.acts[i].ctl.m.replyTo))
    ensures StepFinish(w, i, r).s == Run(w.s, WakeOps(w, w.acts[i].ctl.m.replyTo))
  {
    hide Inv, SchedOk, Legal, Run, Post;
    var m := w.acts[i].ctl.m;
    if m.replyTo >= 0 {
      ReplyReady(w, i, r);
      var w1 := SetCtl(w, i, Leave).(results := w.results[m.tag := r]);
      PostIsOps(w1, m.replyTo, Msg(AP_REPLY, r, 0, 0, 0, -1, m.tag));
      assert WakeOps(w1, m.replyTo) == WakeOps(w, m.replyTo);
    } else {
      NoOp(w.s);
    }
  }

  lemma EnvIsOps(w: World, e: Env)
    requires Inv(w) && EnvEnabled(w, e)
    ensures SchedOk(w.s) && Legal(w.s, EnvOps(w, e)) && EnvNext(w, e).s == Run(w.s, EnvOps(w, e))
  {
    hide Inv, SchedOk, Legal, Run, Post, Lock, Unlock, Resched, Block, Exit, MakeReady, Kill, Create, IsActorProc, InUse;
    InvSched(w);
    SchedSize(w.s);
    match e
    case Timer => OneOp(w.s, OpPreempt(true));
    case GoneExits => GoneFree(w); OneOp(w.s, OpExit);
    case NewActor(b) => SpawnIsOps(w, b);
    case Sends(to, m) => PostIsOps(w, to, m.(replyTo := -1, tag := 0));
    case Yields => OneOp(w.s, OpYield);
    case Blocks => OneOp(w.s, OpBlock);
    case Exits => OneOp(w.s, OpExit);
    case Wakes(p) => OneOp(w.s, OpReady(p));
    case Kills(p) => OneOp(w.s, OpKill(p));
    case Creates(b) => OneOp(w.s, OpCreate(b));
    case Locks => OneOp(w.s, OpLock);
    case Unlocks => OneOp(w.s, OpUnlock);
  }

  lemma GoneFree(w: World)
    requires Inv(w) && w.s.curr in w.gone
    ensures w.s.owner != w.s.curr
  {
    hide CallsOk, CountsOk, SlotsOk, ActorsOk;
    SchedSize(w.s);
  }

  lemma SpawnIsOps(w: World, b: int)
    requires Inv(w) && |w.s.st| == NPROC && |w.s.stack| == NPROC && b !in InUse(w.s)
    ensures var ops := if |w.acts| >= AP_NACT && (forall j :: 0 <= j < |w.acts| ==> w.acts[j].Live()) then [] else [OpCreate(b)];
            SchedOk(w.s) && Legal(w.s, ops) && Spawn(w, b).s == Run(w.s, ops)
  {
    hide Inv, SchedOk, Legal, Run, Create, InUse;
    InvSched(w);
    NoOp(w.s);
    OneOp(w.s, OpCreate(b));
    var id := FreeActor(w.acts, 0);
    assert id < |w.acts| ==> !w.acts[id].Live();
  }

  /** Every move of the actor system is a legal series of scheduler operations. */
  lemma MoveIsOps(w: World, m: Move)
    requires Inv(w) && Can(w, m)
    ensures SchedOk(w.s) && Legal(w.s, OpsOf(w, m)) && Do(w, m).s == Run(w.s, OpsOf(w, m))
  {
    hide Inv, Next, EnvNext, Legal, Run, SchedOk, StepOps, EnvOps, Enabled, EnvEnabled;
    match m
    case By(i, step) => StepIsOps(w, i, step);
    case Other(e) => EnvIsOps(w, e);
  }

  ghost function AllOps(w: World, ms: seq<Move>): seq<Op>
    requires Inv(w) && ActorRuns.Possible(w, ms)
    decreases |ms|
  {
    if ms == [] then [] else (DoOk(w, ms[0]); OpsOf(w, ms[0]) + AllOps(Do(w, ms[0]), ms[1..]))
  }

  /** Every run of the actor system is a legal run of the scheduler. */
  lemma {:induction false} RunIsLegal(w: World, ms: seq<Move>)
    requires Inv(w) && ActorRuns.Possible(w, ms)
    ensures SchedOk(w.s) && Legal(w.s, AllOps(w, ms)) && Run(w.s, AllOps(w, ms)) == End(w, ms).s
    decreases |ms|
  {
    hide Inv, Do, Can, OpsOf, Legal, Run, SchedOk;
    InvSched(w);
    if ms == [] {
      NoOp(w.s);
    } else {
      DoOk(w, ms[0]);
      var w1 := Do(w, ms[0]);
      MoveIsOps(w, ms[0]);
      RunIsLegal(w1, ms[1..]);
      RunPlus(w.s, OpsOf(w, ms[0]), AllOps(w1, ms[1..]));
    }
  }

  /** Nothing but a kill of that process is a kill of it. */
  lemma {:induction false} OnlyKills(w: World, ms: seq<Move>, p: int)
    requires Inv(w) && ActorRuns.Possible(w, ms) && Other(Kills(p)) !in ms
    ensures OpKill(p) !in AllOps(w, ms)
    decreases |ms|
  {
    hide Inv, Do, OpsOf;
    if ms != [] {
      DoOk(w, ms[0]);
      assert ms[0] in ms;
      NoKill(w, ms[0], p);
      OnlyKills(Do(w, ms[0]), ms[1..], p);
    }
  }

  lemma NoKill(w: World, m: Move, p: int)
    requires Inv(w) && Can(w, m) && m != Other(Kills(p))
    ensures OpKill(p) !in OpsOf(w, m)
  {
    hide Inv;
    if m.By? && m.step.DoRestore? {
      AgainLocks(if w.acts[m.i].ctl.held >= 1 then w.acts[m.i].ctl.held - 1 else 0, p);
    }
  }

  lemma {:induction false} AgainLocks(n: nat, p: int)
    ensures OpKill(p) !in Again(n)
  {
    if n > 0 {
      AgainLocks(n - 1, p);
    }
  }

  /**
   Nobody ready is passed over for ever: in every run of the actor system with more than `k` hand-overs
   of the processor, a process at position `k` of the ready queue gets to run unless it is killed.
   */
  lemma ReadyProcessRuns(w: World, ms: seq<Move>, p: nat, k: nat)
    requires Inv(w) && ActorRuns.Possible(w, ms) && k < |w.s.q| && w.s.q[k] == p && Other(Kills(p)) !in ms
    requires SchedOk(w.s) && Legal(w.s, AllOps(w, ms)) && Dispatched(w.s, AllOps(w, ms)) > k
    ensures RanIn(w.s, AllOps(w, ms), p)
  {
    hide Inv, AllOps, Dispatched, RanIn;
    OnlyKills(w, ms, p);
    RunsWithin(w.s, AllOps(w, ms), p, k);
  }

  // ---------- a message's round ----------

  /** What a step does to its own actor: where it goes next, and what it holds. */
  lemma TakesMail(w: World, i: nat)
    requires Inv(w) && Enabled(w, i, DoRecv) && w.acts[i].box != [] && w.s.owner < 0
    ensures var a, w' := w.acts[i], Next(w, i, DoRecv);
            && w'.s == w.s && |w'.acts| == |w.acts| && w'.acts[i] == a.(ctl := Got(a.box[0]), box := a.box[1..])
            && Enabled(w', i, DoLock)
  {
    hide CallsOk, CountsOk, ProcsOk, SlotsOk, ActorsOk;
    InvSched(w);
  }

  /** With the lock free the handler starts with it, held once. */
  lemma StartsHandler(w: World, i: nat)
    requires Inv(w) && Enabled(w, i, DoLock) && w.s.owner < 0
    ensures var a, w' := w.acts[i], Next(w, i, DoLock);
            && w'.s == w.s.(owner := a.pid, depth := 1) && |w'.acts| == |w.acts| && w'.acts[i] == a.(ctl := Handle(a.ctl.m))
            && w'.results == w.results
  {
    hide CallsOk, CountsOk, ProcsOk, SlotsOk, ActorsOk;
    InvSched(w);
  }

  /** The end of the handler leaves the actor about to give the lock up. */
  lemma EndsHandler(w: World, i: nat, step: Step, r: int)
    requires Inv(w) && Enabled(w, i, step) && (step == DoReturn(r) || (step == DoCrash && r == AP_CRASH_REPLY))
    ensures var a, w' := w.acts[i], Next(w, i, step);
            && |w'.acts| == |w.acts| && w'.acts[i] == a.(ctl := Leave)
            && w'.s.curr == w.s.curr && w'.s.owner == w.s.owner && w'.s.depth == w.s.depth
            && w'.gone == w.gone && Enabled(w', i, DoLeave)
  {
    hide Inv, Post, SchedOk;
    InvSched(w);
    var m := w.acts[i].ctl.m;
    if m.replyTo >= 0 {
      ReplyReady(w, i, r);
      CallerLive(w, i);
      PostElse(SetCtl(w, i, Leave).(results := w.results[m.tag := r]), m.replyTo, Msg(AP_REPLY, r, 0, 0, 0, -1, m.tag), i);
    }
  }

  /** A post to somebody else leaves an actor, the processor and the lock alone. */
  lemma PostElse(w: World, to: int, m: Msg, i: nat)
    requires Inv(w) && i < |w.acts| && to != i
    ensures var w' := Post(w, to, m);
            && |w'.acts| == |w.acts| && w'.acts[i] == w.acts[i] && w'.gone == w.gone
            && w'.s.curr == w.s.curr && w'.s.owner == w.s.owner && w'.s.depth == w.s.depth
  {
    hide CallsOk, CountsOk, ProcsOk, SlotsOk, ActorsOk;
    InvSched(w);
    SchedSize(w.s);
  }

  lemma LetsGo(w: World, i: nat)
    requires Inv(w) && Enabled(w, i, DoLeave)
    ensures var a, w' := w.acts[i], Next(w, i, DoLeave);
            && |w'.acts| == |w.acts| && w'.acts[i] == a.(ctl := Check) && w'.gone == w.gone
            && w'.s.curr == w.s.curr && w'.s.owner == -1 && w'.s.depth == 0 && Enabled(w', i, DoCheck)
  {
    hide CallsOk, CountsOk, ProcsOk, SlotsOk, SchedOk;
    InvSched(w);
    LeaveUnlocks(w, i);
  }

  /** An actor that was told to die gives up its slot, and only its process's exit is left; any other reads on. */
  lemma ReadsOnOrDies(w: World, i: nat)
    requires Inv(w) && Enabled(w, i, DoCheck)
    ensures var a, w' := w.acts[i], Next(w, i, DoCheck);
            && w'.s == w.s && |w'.acts| == |w.acts|
            && (!a.dead ==> w'.acts[i] == a.(ctl := Recv) && w'.gone == w.gone)
            && (a.dead ==> w'.acts[i] == a.(pid := -1, ctl := Recv) && w.s.curr in w'.gone && EnvEnabled(w', GoneExits))
  {
    hide Inv;
  }

  /** The moves of actor `i` from taking a message to being ready for the next. */
  function RoundOf(i: nat, r: int): seq<Move> {
    [By(i, DoRecv), By(i, DoLock), By(i, DoReturn(r)), By(i, DoLeave), By(i, DoCheck)]
  }

  /**
   A live actor whose process runs while its mailbox holds mail and the lock is free can take the
   oldest message, handle it and read on: the moves are possible, the message is gone, the lock is
   free again, and a caller's result is recorded.
   */
  lemma Round(w: World, i: nat, r: int)
    requires Inv(w) && Enabled(w, i, DoRecv) && w.acts[i].box != [] && w.s.owner < 0
    ensures ActorRuns.Possible(w, RoundOf(i, r))
    ensures var a, m, w' := w.acts[i], w.acts[i].box[0], End(w, RoundOf(i, r));
            && i < |w'.acts| && w'.acts[i] == (if a.dead then a.(pid := -1, box := a.box[1..]) else a.(box := a.box[1..]))
            && w'.s.owner == -1 && w'.s.depth == 0 && w'.s.curr == w.s.curr
            && (m.replyTo >= 0 ==> m.tag in w'.results && w'.results[m.tag] == r)
  {
    hide Inv, Next, Enabled, EnvEnabled, ActorRuns.Possible, End;
    InRecv(w, i);
    TakesMail(w, i);
    var m1, m2, m3, m4, m5 := By(i, DoRecv), By(i, DoLock), By(i, DoReturn(r)), By(i, DoLeave), By(i, DoCheck);
    DoOk(w, m1);
    var w1 := Do(w, m1);
    StartsHandler(w1, i);
    DoOk(w1, m2);
    var w2 := Do(w1, m2);
    HandlerCan(w1, i, r);
    EndsHandler(w2, i, DoReturn(r), r);
    FinishNotes(w2, i, r);
    DoOk(w2, m3);
    var w3 := Do(w2, m3);
    LetsGo(w3, i);
    KeepsResults(w3, i, DoLeave);
    DoOk(w3, m4);
    var w4 := Do(w3, m4);
    ReadsOnOrDies(w4, i);
    KeepsResults(w4, i, DoCheck);
    DoOk(w4, m5);
    assert [m5] + [] == [m5];
    OneMove(w4, m5, []);
    OneMove(w3, m4, [m5]);
    OneMove(w2, m3, [m4] + [m5]);
    OneMove(w1, m2, [m3] + ([m4] + [m5]));
    OneMove(w, m1, [m2] + ([m3] + ([m4] + [m5])));
    assert RoundOf(i, r) == [m1] + ([m2] + ([m3] + ([m4] + [m5])));
    NoMoves(Do(w4, m5));
  }

  lemma InRecv(w: World, i: nat)
    requires Enabled(w, i, DoRecv)
    ensures i < |w.acts| && w.acts[i].ctl == Recv && w.acts[i].Live()
  {
  }

  lemma HandlerCan(w: World, i: nat, r: int)
    requires Inv(w) && Enabled(w, i, DoLock) && w.s.owner < 0
    ensures Enabled(Next(w, i, DoLock), i, DoReturn(r))
  {
    hide Inv;
    InvSched(w);
  }

  lemma FinishNotes(w: World, i: nat, r: int)
    requires Inv(w) && Enabled(w, i, DoReturn(r))
    ensures w.acts[i].ctl.m.replyTo >= 0 ==> w.acts[i].ctl.m.tag in Next(w, i, DoReturn(r)).results && Next(w, i, DoReturn(r)).results[w.acts[i].ctl.m.tag] == r
  {
    hide Inv, Post;
    InvSched(w);
    FinishResults(w, i, r);
  }

  lemma KeepsResults(w: World, i: nat, step: Step)
    requires Inv(w) && Enabled(w, i, step) && (step.DoLeave? || step.DoCheck?)
    ensures Next(w, i, step).results == w.results
  {
    hide Inv;
  }

  lemma NoMoves(w: World)
    requires Inv(w)
    ensures ActorRuns.Possible(w, []) && End(w, []) == w
  {
    hide Inv;
  }

  lemma OneMove(w: World, m: Move, ms: seq<Move>)
    requires Inv(w) && Can(w, m) && Inv(Do(w, m)) && (ms == [] || ActorRuns.Possible(Do(w, m), ms))
    ensures ActorRuns.Possible(Do(w, m), ms)
    ensures ActorRuns.Possible(w, [m] + ms) && End(w, [m] + ms) == End(Do(w, m), ms)
  {
    hide Inv, Do, Can;
    assert ([m] + ms)[1..] == ms;
  }

  /**
   An actor that kills itself in a handler dies at the end of it: its slot is given up and its
   process exits.
   */
  lemma SuicideEnds(w: World, i: nat, r: int)
    requires Inv(w) && Enabled(w, i, DoSuicide)
    ensures var ms := [By(i, DoSuicide), By(i, DoReturn(r)), By(i, DoLeave), By(i, DoCheck), Other(GoneExits)];
            && ActorRuns.Possible(w, ms) && i < |End(w, ms).acts| && !Live(End(w, ms), i) && w.acts[i].pid !in End(w, ms).gone
            && |End(w, ms).s.st| == NPROC && 0 < w.acts[i].pid < NPROC && End(w, ms).s.st[w.acts[i].pid] == Free
  {
    hide Inv, Next, Enabled, EnvEnabled, EnvNext, ActorRuns.Possible, End;
    var m1, m2, m3, m4, m5 := By(i, DoSuicide), By(i, DoReturn(r)), By(i, DoLeave), By(i, DoCheck), Other(GoneExits);
    MarksDead(w, i, r);
    DoOk(w, m1);
    var w1 := Do(w, m1);
    EndsHandler(w1, i, DoReturn(r), r);
    DoOk(w1, m2);
    var w2 := Do(w1, m2);
    LetsGo(w2, i);
    DoOk(w2, m3);
    var w3 := Do(w2, m3);
    ReadsOnOrDies(w3, i);
    DoOk(w3, m4);
    var w4 := Do(w3, m4);
    DoOk(w4, m5);
    Exits(w4);
    assert [m5] + [] == [m5];
    OneMove(w4, m5, []);
    OneMove(w3, m4, [m5]);
    OneMove(w2, m3, [m4] + [m5]);
    OneMove(w1, m2, [m3] + ([m4] + [m5]));
    OneMove(w, m1, [m2] + ([m3] + ([m4] + [m5])));
    assert [m1, m2, m3, m4, m5] == [m1] + ([m2] + ([m3] + ([m4] + [m5])));
    NoMoves(Do(w4, m5));
  }

  lemma MarksDead(w: World, i: nat, r: int)
    requires Inv(w) && Enabled(w, i, DoSuicide)
    ensures i < |w.acts|
    ensures var w' := Next(w, i, DoSuicide);
            && w' == w.(acts := w.acts[i := w.acts[i].(dead := true)]) && w.s.curr == w.acts[i].pid
            && Enabled(w', i, DoReturn(r))
  {
    hide Inv;
  }

  /** The process that left its slot is gone from the scheduler as well. */
  lemma Exits(w: World)
    requires Inv(w) && EnvEnabled(w, GoneExits)
    ensures var w' := EnvNext(w, GoneExits);
            && w'.acts == w.acts && w.s.curr !in w'.gone && |w'.s.st| == NPROC && 0 < w.s.curr < NPROC && w'.s.st[w.s.curr] == Free
  {
    hide CallsOk, CountsOk, SlotsOk, ActorsOk;
    InvSched(w);
    FrameSwitch(w.s);
  }

  /** A handler that selects takes the oldest message it wants, and goes on with the one it is handling. */
  lemma SelectTakes(w: World, i: nat, wants: seq<int>, k: nat)
    requires Inv(w) && Enabled(w, i, DoSelect(wants)) && k < |w.acts[i].box| && w.acts[i].box[k].meth in wants
    requires forall j :: 0 <= j < k ==> w.acts[i].box[j].meth !in wants
    ensures var a, w1 := w.acts[i], Next(w, i, DoSelect(wants));
            && Inv(w1) && Enabled(w1, i, DoScan)
            && Next(w1, i, DoScan).acts == w.acts[i := a.(box := a.box[..k] + a.box[k + 1..])]
  {
    hide Inv, StepScan;
    StepOk(w, i, DoSelect(wants));
    var w1 := Next(w, i, DoSelect(wants));
    ScanTakesOldest(w1, i, k);
  }

  // ---------- new actors ----------

  /**
   With a free process slot, a stack for it and room in the actor table, spawning makes a live
   actor in the lowest slot nobody has, reading an empty mailbox, whose process is last in the
   ready queue.
   */
  lemma Spawned(w: World, block: int) returns (id: nat, p: nat)
    requires Inv(w) && block != 0 && |w.s.st| == NPROC && |w.s.stack| == NPROC && block !in InUse(w.s)
    requires exists p :: 0 < p < NPROC && w.s.st[p] == Free
    requires |w.acts| < AP_NACT || exists j :: 0 <= j < |w.acts| && !w.acts[j].Live()
    ensures 0 < p < NPROC && w.s.st[p] == Free && id <= |w.acts|
    ensures (forall j :: 0 <= j < id ==> w.acts[j].Live()) && (id < |w.acts| ==> !w.acts[id].Live())
    ensures var w', a := Spawn(w, block), Actor(p, [], false, false, Recv);
            && w'.acts == (if id < |w.acts| then w.acts[id := a] else w.acts + [a])
            && w'.s.st == w.s.st[p := Ready] && w'.s.q == w.s.q + [p]
  {
    hide CallsOk, CountsOk, ProcsOk, SlotsOk, ActorsOk, InUse, Create;
    InvSched(w);
    CreatedAt(w.s, block);
    id, p := FreeActor(w.acts, 0), FreeSlot(w.s.st, 1);
    var a := Actor(p, [], false, false, Recv);
    assert forall j :: 0 <= j < id ==> w.acts[j].Live();
    var w' := Spawn(w, block);
    assert w'.acts == if id < |w.acts| then w.acts[id := a] else w.acts + [a];
  }

  lemma CreatedAt(s: Sched, block: int)
    requires SchedOk(s) && block != 0 && exists p :: 0 < p < NPROC && s.st[p] == Free
    ensures var p := FreeSlot(s.st, 1);
            0 < p < NPROC && s.st[p] == Free && Create(s, block).st == s.st[p := Ready] && Create(s, block).q == s.q + [p]
  {
  }
}
