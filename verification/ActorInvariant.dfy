/**
 Every step of every process keeps the actor system's invariant.
 */
module ActorInvariant {
  import opened Lists
  import opened Mailbox
  import opened ReadyList
  import opened Actors

  // ---------- what scheduler operations leave alone ----------

  /** Nobody but `c` started or stopped waiting, existing or owning the lock. */
  ghost predicate Frame(s: Sched, s': Sched, c: int) {
    && |s.st| == NPROC && |s'.st| == NPROC
    && forall p :: 0 < p < NPROC && p != c ==> Same(s, s', p)
  }

  ghost predicate Same(s: Sched, s': Sched, p: int)
    requires |s.st| == NPROC && |s'.st| == NPROC && 0 < p < NPROC
  {
    && (s'.st[p] == Wait <==> s.st[p] == Wait)
    && (s'.st[p] == Free <==> s.st[p] == Free)
    && (s'.owner == p <==> s.owner == p)
    && (s.owner == p ==> s'.depth == s.depth)
  }

  lemma FrameSwitch(s: Sched)
    requires SchedOk(s)
    ensures Frame(s, Resched(s), s.curr) && Frame(s, Block(s), s.curr) && Frame(s, Exit(s), s.curr)
    ensures 0 < s.curr ==> Resched(s).st[s.curr] != Wait && Resched(s).st[s.curr] != Free
    ensures 0 < s.curr ==> Block(s).st[s.curr] == Wait && Exit(s).st[s.curr] == Free
    ensures Resched(s).owner == s.owner && Block(s).owner == s.owner && Exit(s).owner == s.owner
    ensures Resched(s).depth == s.depth && Block(s).depth == s.depth
  {
    assert s.q != [] ==> s.q[0] in s.q;
    var e := Without(s.q, s.curr);
    assert e != [] ==> e[0] in e;
  }

  lemma FrameLock(s: Sched)
    requires SchedOk(s)
    ensures CanLock(s) ==> Frame(s, Lock(s), s.curr)
    ensures Frame(s, Unlock(s), s.curr) && Frame(s, UnlockAll(s), s.curr)
  {
  }

  lemma FrameReady(s: Sched, p: int)
    requires SchedOk(s)
    ensures Frame(s, MakeReady(s, p), p) && Frame(s, Kill(s, p), p)
  {
  }

  lemma FrameTrans(a: Sched, b: Sched, d: Sched, c: int)
    requires Frame(a, b, c) && Frame(b, d, c)
    ensures Frame(a, d, c)
  {
    forall p | 0 < p < NPROC && p != c ensures Same(a, d, p) {
      assert Same(a, b, p) && Same(b, d, p);
    }
  }

  lemma ActorFrame(s: Sched, s': Sched, c: int, a: Actor)
    requires Frame(s, s', c) && ActorOk(s, a) && (a.Live() ==> a.pid != c)
    ensures ActorOk(s', a)
  {
    assert a.Live() ==> Same(s, s', a.pid);
  }

  // ---------- the parts of the invariant, one at a time ----------

  /** A step of actor `i`'s own process that touches its slot and the scheduler. */
  lemma OwnStep(w: World, i: nat, s': Sched, a': Actor)
    requires SchedOk(w.s) && ActorsOk(w) && ProcsOk(w) && Live(w, i)
    requires a'.pid == w.acts[i].pid && |s'.st| == NPROC && Frame(w.s, s', a'.pid) && ActorOk(s', a')
    ensures ActorsOk(SetActor(w, i, a').(s := s')) && ProcsOk(SetActor(w, i, a').(s := s'))
  {
    hide ActorOk, SchedOk, Frame;
    var w' := SetActor(w, i, a').(s := s');
    forall j | 0 <= j < |w.acts| && j != i ensures ActorOk(s', w.acts[j]) {
      ActorFrame(w.s, s', a'.pid, w.acts[j]);
    }
    assert forall j :: Live(w', j) <==> Live(w, j);
    FrameSize(w.s, s', a'.pid);
    GoneFrame(w, s', a'.pid);
  }

  lemma GoneFrame(w: World, s': Sched, c: int)
    requires |w.s.st| == NPROC && ProcsOk(w) && Frame(w.s, s', c) && c !in w.gone
    ensures forall p :: p in w.gone ==> 0 < p < NPROC && s'.st[p] != Free && s'.st[p] != Wait && p != s'.owner
  {
    forall p | p in w.gone ensures 0 < p < NPROC && s'.st[p] != Free && s'.st[p] != Wait && p != s'.owner {
      assert Same(w.s, s', p);
    }
  }

  /** A step of somebody else that touches only the scheduler. */
  lemma OtherStep(w: World, s': Sched, c: int)
    requires SchedOk(w.s) && ActorsOk(w) && ProcsOk(w) && Frame(w.s, s', c) && !IsActorProc(w, c)
    ensures ActorsOk(w.(s := s')) && ProcsOk(w.(s := s'))
  {
    hide ActorOk, SchedOk, Frame;
    FrameSize(w.s, s', c);
    forall j | 0 <= j < |w.acts| ensures ActorOk(s', w.acts[j]) {
      assert Live(w, j) <==> w.acts[j].Live();
      ActorFrame(w.s, s', c, w.acts[j]);
    }
    assert forall j :: Live(w.(s := s'), j) <==> Live(w, j);
    GoneFrame(w, s', c);
  }

  lemma FrameSize(s: Sched, s': Sched, c: int)
    requires Frame(s, s', c)
    ensures |s.st| == NPROC && |s'.st| == NPROC
  {
  }

  // ---------- outstanding calls ----------

  lemma {:induction false} OutstandingUpdate(acts: seq<Actor>, i: nat, a: Actor, n: nat)
    requires i < |acts| && n <= |acts|
    ensures i < n ==> forall e :: Outstanding(acts[i := a], n)[e] + Items(acts[i], i)[e] == Outstanding(acts, n)[e] + Items(a, i)[e]
    ensures i >= n ==> Outstanding(acts[i := a], n) == Outstanding(acts, n)
    ensures i < n ==> Queued(acts[i := a], n) + |acts[i].box| == Queued(acts, n) + |a.box|
    ensures i >= n ==> Queued(acts[i := a], n) == Queued(acts, n)
    decreases n
  {
    hide Items;
    if n > 0 {
      OutstandingUpdate(acts, i, a, n - 1);
    }
  }

  lemma {:induction false} OutstandingAppend(acts: seq<Actor>, a: Actor, n: nat)
    requires n <= |acts|
    ensures Outstanding(acts + [a], n) == Outstanding(acts, n) && Queued(acts + [a], n) == Queued(acts, n)
    decreases n
  {
    hide Items;
    if n > 0 {
      OutstandingAppend(acts, a, n - 1);
    }
  }

  lemma BoxAppend(c: seq<Msg>, m: Msg, at: int)
    ensures BoxItems(c + [m], at) == BoxItems(c, at) + MsgItem(m, at)
  {
    assert (c + [m])[..|c|] == c;
  }

  lemma {:induction false} BoxRemove(c: seq<Msg>, k: nat, at: int)
    requires k < |c|
    ensures BoxItems(Remove(c, k), at) + MsgItem(c[k], at) == BoxItems(c, at)
    decreases |c|
  {
    hide MsgItem;
    var d, z := c[..|c| - 1], c[|c| - 1];
    if k == |c| - 1 {
      assert Remove(c, k) == d;
    } else {
      BoxRemove(d, k, at);
      assert Remove(c, k) == Remove(d, k) + [z];
      BoxAppend(Remove(d, k), z, at);
    }
  }

  /** Slot `i` lost items or kept them, and its call stayed what it was or had nothing outstanding. */
  lemma CallsShrink(acts: seq<Actor>, i: nat, a: Actor)
    requires CallsOk(acts) && i < |acts| && Items(a, i) <= Items(acts[i], i)
    requires Calling(a.ctl) == Calling(acts[i].ctl) || Calling(a.ctl) < 0
    requires Calling(a.ctl) != Calling(acts[i].ctl) ==> forall t: nat :: (i, t) !in Outstanding(acts[i := a], |acts|)
    ensures CallsOk(acts[i := a])
  {
    hide Items, Outstanding;
    OutstandingUpdate(acts, i, a, |acts|);
    var o, o' := Outstanding(acts, |acts|), Outstanding(acts[i := a], |acts|);
    assert o' <= o;
    forall e | e in o' ensures o'[e] == 1 && 0 <= e.0 < |acts| && Calling(acts[i := a][e.0].ctl) == e.1 {
      assert e in o;
    }
  }

  /** A new item whose caller waits for exactly that call, with nothing else outstanding. */
  lemma CallsGrow(acts: seq<Actor>, i: nat, a: Actor, e: (int, nat))
    requires CallsOk(acts) && i < |acts| && Items(a, i) == Items(acts[i], i) + multiset{e}
    requires Calling(a.ctl) == Calling(acts[i].ctl)
    requires 0 <= e.0 < |acts| && Calling(acts[e.0].ctl) == e.1 && e !in Outstanding(acts, |acts|)
    ensures CallsOk(acts[i := a])
  {
    hide Items, Outstanding;
    OutstandingUpdate(acts, i, a, |acts|);
    var o, o' := Outstanding(acts, |acts|), Outstanding(acts[i := a], |acts|);
    assert o' == o + multiset{e};
    forall x | x in o' ensures o'[x] == 1 && 0 <= x.0 < |acts| && Calling(acts[i := a][x.0].ctl) == x.1 {
      assert x == e || x in o;
    }
  }

  /** A fresh call by an actor for which nothing was outstanding. */
  lemma CallsStart(acts: seq<Actor>, i: nat, a: Actor)
    requires CallsOk(acts) && i < |acts| && Items(a, i) == Items(acts[i], i)
    requires Calling(acts[i].ctl) < 0 && Calling(a.ctl) >= 0
    requires forall j :: 0 <= j < |acts| ==> Calling(acts[j].ctl) < Calling(a.ctl)
    ensures CallsOk(acts[i := a])
    ensures forall t: nat :: (i, t) !in Outstanding(acts[i := a], |acts|)
  {
    hide Items, Outstanding;
    OutstandingUpdate(acts, i, a, |acts|);
    var o, o' := Outstanding(acts, |acts|), Outstanding(acts[i := a], |acts|);
    assert o' == o;
    forall e | e in o' ensures o'[e] == 1 && 0 <= e.0 < |acts| && Calling(acts[i := a][e.0].ctl) == e.1 {
      assert e in o;
    }
  }

  /** An item in a slot is outstanding. */
  lemma {:induction false} ItemOutstanding(acts: seq<Actor>, i: nat, e: (int, nat), n: nat)
    requires i < n <= |acts| && e in Items(acts[i], i)
    ensures e in Outstanding(acts, n)
    ensures Outstanding(acts, n)[e] >= Items(acts[i], i)[e]
    decreases n
  {
    hide Items;
    if i < n - 1 {
      ItemOutstanding(acts, i, e, n - 1);
    }
  }

  lemma {:induction false} MsgInBox(c: seq<Msg>, k: nat, at: int)
    requires k < |c|
    ensures MsgItem(c[k], at) <= BoxItems(c, at)
  {
    hide MsgItem;
    BoxRemove(c, k, at);
  }

  /** Replies wait only in the mailbox of an actor that is in that very call. */
  lemma ReplyMeansCall(w: World, i: nat, k: nat)
    requires CallsOk(w.acts) && i < |w.acts| && k < |w.acts[i].box| && w.acts[i].box[k].meth == AP_REPLY
    ensures Calling(w.acts[i].ctl) == w.acts[i].box[k].tag
  {
    var a := w.acts[i];
    MsgInBox(a.box, k, i);
    ItemOutstanding(w.acts, i, (i, a.box[k].tag), |w.acts|);
  }

  // ---------- steps ----------

  lemma SchedSize(s: Sched)
    requires SchedOk(s)
    ensures |s.st| == NPROC && |s.stack| == NPROC && s.curr < NPROC && forall p :: p in s.q ==> 0 < p < NPROC
  {
  }

  /** The items of a message that is about to be posted belong to callers that wait for them. */
  ghost predicate Postable(w: World, to: int, m: Msg) {
    forall e :: e in MsgItem(m, to) ==>
      0 <= e.0 < |w.acts| && Calling(w.acts[e.0].ctl) == e.1 && e !in Outstanding(w.acts, |w.acts|)
  }

  lemma PostOk(w: World, to: int, m: Msg)
    requires Inv(w) && Postable(w, to, m) && MsgOk(m, w.results)
    ensures Inv(Post(w, to, m))
    ensures Post(w, to, m).s.curr == w.s.curr && |Post(w, to, m).acts| == |w.acts|
  {
    hide Inv, Post;
    if 0 <= to < |w.acts| && w.acts[to].pid != -1 && |w.acts[to].box| != AP_QLEN - 1 {
      PostTaken(w, to, m);
    } else {
      PostDropped(w, to, m);
    }
  }

  lemma PostDropped(w: World, to: int, m: Msg)
    requires Inv(w) && !(0 <= to < |w.acts| && w.acts[to].pid != -1 && |w.acts[to].box| != AP_QLEN - 1)
    ensures Inv(Post(w, to, m)) && Post(w, to, m).s.curr == w.s.curr && |Post(w, to, m).acts| == |w.acts|
  {
    hide SchedOk, ActorOk, SlotOk, CallsOk, Outstanding, Items, MakeReady, Queued;
    SchedSize(w.s);
  }

  lemma PostTaken(w: World, to: nat, m: Msg)
    requires Inv(w) && Postable(w, to, m) && MsgOk(m, w.results)
    requires to < |w.acts| && w.acts[to].pid != -1 && |w.acts[to].box| != AP_QLEN - 1
    ensures Inv(Post(w, to, m)) && Post(w, to, m).s.curr == w.s.curr && |Post(w, to, m).acts| == |w.acts|
  {
    hide SchedOk, ActorOk, SlotOk, CallsOk, Outstanding, Items, MakeReady, Postable, Queued;
    SchedSize(w.s);
    var a := w.acts[to];
    var a' := a.(box := a.box + [m], waiting := false);
    var s' := if a.waiting then MakeReady(w.s, a.pid) else w.s;
    assert Live(w, to);
    PostSched(w, to, m);
    OwnStep(w, to, s', a');
    PostCalls(w, to, m);
    PostSlot(w, to, m);
    OutstandingUpdate(w.acts, to, a', |w.acts|);
  }

  lemma PostSched(w: World, to: nat, m: Msg)
    requires Inv(w) && Live(w, to)
    ensures var a := w.acts[to];
            var s' := if a.waiting then MakeReady(w.s, a.pid) else w.s;
            && SchedOk(s') && |s'.st| == NPROC && s'.curr == w.s.curr && Frame(w.s, s', a.pid)
            && ActorOk(s', a.(box := a.box + [m], waiting := false))
  {
    assert ActorOk(w.s, w.acts[to]);
    MakeReadyOk(w.s, w.acts[to].pid);
    FrameReady(w.s, w.acts[to].pid);
  }

  /** Posting readies only processes that wait, so it revives no slot that lost its stack. */
  lemma PostRevivesNobody(w: World, to: nat)
    requires Inv(w) && Live(w, to) && w.acts[to].waiting
    ensures !Revives(w.s, OpReady(w.acts[to].pid))
  {
    assert ActorOk(w.s, w.acts[to]);
  }

  lemma PostCalls(w: World, to: nat, m: Msg)
    requires Inv(w) && Live(w, to) && Postable(w, to, m)
    ensures var a := w.acts[to]; CallsOk(w.acts[to := a.(box := a.box + [m], waiting := false)])
  {
    hide SchedOk, ActorsOk, SlotsOk, CallsOk, CountsOk, Outstanding, BoxItems;
    var a := w.acts[to];
    var a' := a.(box := a.box + [m], waiting := false);
    BoxAppend(a.box, m, to);
    if m.meth == AP_REPLY {
      CallsGrow(w.acts, to, a', (to, m.tag));
    } else if m.replyTo >= 0 {
      CallsGrow(w.acts, to, a', (m.replyTo, m.tag));
    } else {
      CallsShrink(w.acts, to, a');
    }
  }

  lemma PostSlot(w: World, to: nat, m: Msg)
    requires Inv(w) && Live(w, to) && MsgOk(m, w.results) && |w.acts[to].box| != AP_QLEN - 1
    ensures var a := w.acts[to]; SlotOk(a.(box := a.box + [m], waiting := false), w.nextTag, w.results)
  {
    assert SlotOk(w.acts[to], w.nextTag, w.results);
  }

  /** A step of actor `i` that takes no message and leaves its call alone. */
  lemma PlainStep(w: World, i: nat, s': Sched, a': Actor)
    requires Inv(w) && Live(w, i) && SchedOk(s') && Frame(w.s, s', w.acts[i].pid)
    requires a'.pid == w.acts[i].pid && a'.box == w.acts[i].box && ActorOk(s', a')
    requires CtlItems(a'.ctl) <= CtlItems(w.acts[i].ctl) && Calling(a'.ctl) == Calling(w.acts[i].ctl)
    requires SlotOk(a', w.nextTag, w.results)
    ensures Inv(SetActor(w, i, a').(s := s'))
  {
    hide SchedOk, ActorOk, SlotOk, CallsOk, Outstanding, BoxItems, CtlItems, Calling, Frame;
    FrameSize(w.s, s', w.acts[i].pid);
    OwnStep(w, i, s', a');
    CallsShrink(w.acts, i, a');
    OutstandingUpdate(w.acts, i, a', |w.acts|);
  }

  lemma ActorAt(w: World, i: nat)
    requires Inv(w) && i < |w.acts|
    ensures ActorOk(w.s, w.acts[i]) && SlotOk(w.acts[i], w.nextTag, w.results)
    ensures Live(w, i) ==> w.acts[i].pid !in w.gone
  {
  }

  /** The current process's actor does not wait. */
  lemma MineRuns(w: World, i: nat)
    requires Inv(w) && Live(w, i) && w.s.curr == w.acts[i].pid
    ensures 0 < w.s.curr < NPROC && !w.acts[i].waiting && w.s.st[w.s.curr] == Curr
  {
    ActorAt(w, i);
  }

  lemma RecvOk(w: World, i: nat)
    requires Inv(w) && Enabled(w, i, DoRecv)
    ensures Inv(StepRecv(w, i))
  {
    hide SchedOk, CallsOk, Outstanding, Frame;
    ActorAt(w, i);
    MineRuns(w, i);
    SchedSize(w.s);
    var a := w.acts[i];
    if a.box == [] {
      BlockOk(w.s);
      FrameSwitch(w.s);
      PlainStep(w, i, Block(w.s), a.(waiting := true));
    } else {
      TakeOk(w, i, 0, Got(a.box[0]));
      assert Remove(a.box, 0) == a.box[1..];
    }
  }

  /** Taking message `k` out of the mailbox. */
  lemma TakeOk(w: World, i: nat, k: nat, c: Ctl)
    requires Inv(w) && Live(w, i) && k < |w.acts[i].box| && !w.acts[i].waiting
    requires (w.acts[i].ctl.Recv? && c == Got(w.acts[i].box[k])) || (w.acts[i].ctl.Select? && c == Handle(w.acts[i].ctl.m) && w.acts[i].box[k].meth in w.acts[i].ctl.wants)
    ensures Inv(SetActor(w, i, w.acts[i].(box := Remove(w.acts[i].box, k), ctl := c)).(taken := w.taken + 1))
  {
    hide SchedOk, CallsOk, Outstanding, BoxItems, Frame;
    var a := w.acts[i];
    var a' := a.(box := Remove(a.box, k), ctl := c);
    ActorAt(w, i);
    FrameSelf(w.s, a.pid);
    OwnStep(w, i, w.s, a');
    TakenSlot(w, i, k, c);
    TakenCalls(w, i, k, c);
    OutstandingUpdate(w.acts, i, a', |w.acts|);
  }

  lemma FrameSelf(s: Sched, c: int)
    requires SchedOk(s)
    ensures Frame(s, s, c)
  {
  }

  lemma TakenSlot(w: World, i: nat, k: nat, c: Ctl)
    requires Inv(w) && i < |w.acts| && k < |w.acts[i].box|
    requires (w.acts[i].ctl.Recv? && c == Got(w.acts[i].box[k])) || (w.acts[i].ctl.Select? && c == Handle(w.acts[i].ctl.m))
    ensures SlotOk(w.acts[i].(box := Remove(w.acts[i].box, k), ctl := c), w.nextTag, w.results)
  {
    hide SchedOk, CallsOk, Outstanding, ActorsOk;
    ActorAt(w, i);
    if w.acts[i].box[k].meth == AP_REPLY {
      ReplyMeansCall(w, i, k);
    }
  }

  lemma TakenCalls(w: World, i: nat, k: nat, c: Ctl)
    requires Inv(w) && i < |w.acts| && k < |w.acts[i].box|
    requires (w.acts[i].ctl.Recv? && c == Got(w.acts[i].box[k])) || (w.acts[i].ctl.Select? && c == Handle(w.acts[i].ctl.m) && w.acts[i].box[k].meth in w.acts[i].ctl.wants)
    ensures CallsOk(w.acts[i := w.acts[i].(box := Remove(w.acts[i].box, k), ctl := c)])
  {
    hide SchedOk, CallsOk, Outstanding, ActorsOk, BoxItems;
    var a := w.acts[i];
    var a' := a.(box := Remove(a.box, k), ctl := c);
    ActorAt(w, i);
    var m := a.box[k];
    BoxRemove(a.box, k, i);
    if m.meth == AP_REPLY {
      ReplyMeansCall(w, i, k);
      assert MsgItem(m, i) == multiset{(i as int, m.tag)};
      TakenItems(a, k, c, i);
      ReplyTaken(w, i, k, a');
    } else {
      TakenItems(a, k, c, i);
    }
    CallsShrink(w.acts, i, a');
  }

  lemma TakenItems(a: Actor, k: nat, c: Ctl, i: nat)
    requires k < |a.box| && (a.ctl.Select? || a.box[k].meth != AP_REPLY)
    requires (a.ctl.Recv? && c == Got(a.box[k])) || (a.ctl.Select? && c == Handle(a.ctl.m))
    ensures var a' := a.(box := Remove(a.box, k), ctl := c);
            && Items(a', i) <= Items(a, i)
            && (a.ctl.Select? ==> Items(a', i) + MsgItem(a.box[k], i) == Items(a, i))
  {
    hide BoxItems;
    BoxRemove(a.box, k, i);
  }

  /** Once the reply is taken nothing is outstanding for its caller. */
  lemma ReplyTaken(w: World, i: nat, k: nat, a': Actor)
    requires Inv(w) && i < |w.acts| && k < |w.acts[i].box| && w.acts[i].box[k].meth == AP_REPLY
    requires Items(a', i) + multiset{(i as int, w.acts[i].box[k].tag)} == Items(w.acts[i], i)
    ensures forall t: nat :: (i, t) !in Outstanding(w.acts[i := a'], |w.acts|)
  {
    hide SchedOk, Outstanding, ActorsOk, Items, SlotsOk;
    var a := w.acts[i];
    var e := (i as int, a.box[k].tag);
    ReplyMeansCall(w, i, k);
    assert e in Items(a, i);
    ItemOutstanding(w.acts, i, e, |w.acts|);
    OutstandingUpdate(w.acts, i, a', |w.acts|);
    var o' := Outstanding(w.acts[i := a'], |w.acts|);
    assert o'[e] == 0;
    forall t: nat ensures (i, t) !in o' {
      var x := (i as int, t);
      assert o'[x] <= Outstanding(w.acts, |w.acts|)[x];
      assert t != e.1 ==> x !in Outstanding(w.acts, |w.acts|);
    }
  }

  lemma ScanOk(w: World, i: nat)
    requires Inv(w) && Enabled(w, i, DoScan)
    ensures Inv(StepScan(w, i))
  {
    hide SchedOk, CallsOk, Outstanding, Frame;
    ActorAt(w, i);
    MineRuns(w, i);
    SchedSize(w.s);
    var a := w.acts[i];
    var k := FirstWanted(a.box, a.ctl.wants, 0);
    if k < |a.box| {
      TakeOk(w, i, k, Handle(a.ctl.m));
    } else {
      var c := Parked(a.ctl.m, a.ctl.wants, a.ctl.call, Held(w.s));
      ParkSched(w.s);
      PlainStep(w, i, UnlockedBlock(w.s), a.(waiting := true, ctl := c));
    }
  }

  /** Letting go of the lock and blocking, in one go. */
  lemma ParkSched(s: Sched)
    requires SchedOk(s) && 0 < s.curr
    ensures var s' := UnlockedBlock(s);
            SchedOk(s') && Frame(s, s', s.curr) && s'.st[s.curr] == Wait && s'.owner != s.curr
    ensures s.owner == s.curr ==> Held(s) >= 1
  {
    hide SchedOk, Frame;
    LockKeeps(s);
    UnlockFacts(s);
    var s1 := UnlockAll(s);
    SchedSize(s1);
    BlockOk(s1);
    FrameLock(s);
    FrameSwitch(s1);
    FrameTrans(s, s1, Block(s1), s.curr);
  }

  lemma UnlockFacts(s: Sched)
    requires SchedOk(s)
    ensures UnlockAll(s).owner != s.curr && UnlockAll(s).curr == s.curr
    ensures s.owner == s.curr ==> s.depth >= 1
  {
  }

  lemma LockFacts(s: Sched)
    requires SchedOk(s) && CanLock(s)
    ensures Lock(s).owner == s.curr && (s.owner < 0 ==> Lock(s).depth == 1) && Lock(s).depth >= 1 && Lock(s).st == s.st
    ensures SchedOk(Lock(s)) && Frame(s, Lock(s), s.curr)
  {
    LockKeeps(s);
    FrameLock(s);
  }

  lemma LockStepOk(w: World, i: nat, c: Ctl)
    requires Inv(w) && Live(w, i) && w.s.curr == w.acts[i].pid
    requires var d := w.acts[i].ctl; (d.Got? && c == Handle(d.m)) || (d.Parked? && c == Relocked(d.m, d.wants, d.call, d.held))
    ensures Inv(if CanLock(w.s) then SetCtl(w, i, c).(s := Lock(w.s)) else w.(s := Resched(w.s)))
  {
    hide SchedOk, CallsOk, Outstanding, Frame;
    ActorAt(w, i);
    MineRuns(w, i);
    SchedSize(w.s);
    var a := w.acts[i];
    if CanLock(w.s) {
      LockFacts(w.s);
      PlainStep(w, i, Lock(w.s), a.(ctl := c));
    } else {
      YieldOk(w, i);
    }
  }

  /** The processor goes to somebody else and the actor stays where it is. */
  lemma YieldOk(w: World, i: nat)
    requires Inv(w) && Live(w, i) && w.s.curr == w.acts[i].pid
    ensures Inv(w.(s := Resched(w.s)))
  {
    hide SchedOk, CallsOk, Outstanding, Frame, SlotOk;
    ActorAt(w, i);
    MineRuns(w, i);
    SchedSize(w.s);
    ReschedOk(w.s);
    FrameSwitch(w.s);
    PlainStep(w, i, Resched(w.s), w.acts[i]);
    assert w.acts[i := w.acts[i]] == w.acts;
  }

  lemma DepthOk(s: Sched, d: nat)
    requires SchedOk(s) && s.owner == s.curr && d >= 1
    ensures SchedOk(s.(depth := d)) && Frame(s, s.(depth := d), s.curr)
  {
  }

  lemma RestoreOk(w: World, i: nat)
    requires Inv(w) && Enabled(w, i, DoRestore)
    ensures Inv(Next(w, i, DoRestore))
  {
    hide CallsOk, Outstanding, SchedOk;
    ActorAt(w, i);
    MineRuns(w, i);
    var a := w.acts[i];
    DepthOk(w.s, a.ctl.held);
    PlainStep(w, i, w.s.(depth := a.ctl.held), a.(ctl := Select(a.ctl.m, a.ctl.wants, a.ctl.call)));
  }

  lemma NestOk(w: World, i: nat, step: Step)
    requires Inv(w) && Enabled(w, i, step) && (step.DoNest? || step.DoUnnest?)
    ensures Inv(Next(w, i, step))
  {
    hide CallsOk, Outstanding, StacksOk, QueueOk;
    ActorAt(w, i);
    MineRuns(w, i);
    LockKeeps(w.s);
    FrameLock(w.s);
    PlainStep(w, i, if step.DoNest? then Lock(w.s) else Unlock(w.s), w.acts[i]);
    assert w.acts[i := w.acts[i]] == w.acts;
  }

  lemma LeaveOk(w: World, i: nat)
    requires Inv(w) && Enabled(w, i, DoLeave)
    ensures Inv(Next(w, i, DoLeave))
  {
    hide SchedOk, CallsOk, Outstanding, Frame;
    ActorAt(w, i);
    MineRuns(w, i);
    LockKeeps(w.s);
    UnlockFacts(w.s);
    FrameLock(w.s);
    PlainStep(w, i, UnlockAll(w.s), w.acts[i].(ctl := Check));
  }

  /** Steps that only move the actor along. */
  lemma MoveOk(w: World, i: nat, step: Step)
    requires Inv(w) && Enabled(w, i, step) && (step.DoSelect? || step.DoSuicide? || (step.DoCheck? && !w.acts[i].dead))
    ensures Inv(Next(w, i, step))
  {
    hide SchedOk, CallsOk, Outstanding, Frame;
    ActorAt(w, i);
    MineRuns(w, i);
    FrameSelf(w.s, w.s.curr);
    var a := w.acts[i];
    var a' := match step
      case DoSelect(wants) => a.(ctl := Select(a.ctl.m, wants, -1))
      case DoSuicide => a.(dead := true)
      case _ => a.(ctl := Recv);
    PlainStep(w, i, w.s, a');
  }

  /** The actor gives up its slot; the process has only its exit left. */
  lemma DieOk(w: World, i: nat)
    requires Inv(w) && Enabled(w, i, DoCheck) && w.acts[i].dead
    ensures Inv(Next(w, i, DoCheck))
  {
    hide SchedOk, CallsOk, Outstanding, BoxItems, ActorOk, SlotOk;
    SchedSize(w.s);
    DeadSlot(w, i);
    var a' := w.acts[i].(pid := -1, ctl := Recv);
    var w' := Next(w, i, DoCheck);
    CallsShrink(w.acts, i, a');
    OutstandingUpdate(w.acts, i, a', |w.acts|);
    assert forall j :: Live(w', j) <==> Live(w, j) && j != i;
    assert ProcsOk(w');
  }

  lemma DeadSlot(w: World, i: nat)
    requires Inv(w) && Enabled(w, i, DoCheck)
    ensures var a' := w.acts[i].(pid := -1, ctl := Recv);
            ActorOk(w.s, a') && SlotOk(a', w.nextTag, w.results)
    ensures 0 < w.s.curr < NPROC && w.s.st[w.s.curr] == Curr && w.s.owner != w.s.curr
  {
    ActorAt(w, i);
    MineRuns(w, i);
  }

  lemma SendOk(w: World, to: int, m: Msg)
    requires Inv(w) && m.meth != AP_REPLY
    ensures Inv(Post(w, to, m.(replyTo := -1, tag := 0)))
  {
    hide Inv, Outstanding;
    PostOk(w, to, m.(replyTo := -1, tag := 0));
  }

  lemma CallOk(w: World, i: nat, to: int, m: Msg)
    requires Inv(w) && Enabled(w, i, DoCall(to, m))
    ensures Inv(StepCall(w, i, to, m))
  {
    hide SchedOk, CallsOk, Outstanding, Frame, BoxItems, Inv, Post;
    var w1 := SetCtl(w, i, Select(w.acts[i].ctl.m, [AP_REPLY], w.nextTag)).(nextTag := w.nextTag + 1);
    CallStarted(w, i, w1);
    PostOk(w1, to, m.(replyTo := i, tag := w.nextTag));
  }

  lemma CallStarted(w: World, i: nat, w1: World)
    requires Inv(w) && Live(w, i) && w.s.curr == w.acts[i].pid && w.acts[i].ctl.Handle?
    requires w1 == SetCtl(w, i, Select(w.acts[i].ctl.m, [AP_REPLY], w.nextTag)).(nextTag := w.nextTag + 1)
    ensures Inv(w1) && w.nextTag !in w1.results && forall t: nat :: (i, t) !in Outstanding(w1.acts, |w1.acts|)
  {
    hide SchedOk, CallsOk, Outstanding, Frame, BoxItems, ActorOk, SlotOk;
    SchedSize(w.s);
    SelectSlot(w, i);
    FrameSelf(w.s, w.s.curr);
    OwnStep(w, i, w.s, w1.acts[i]);
    SlotsMore(w);
    CallsStart(w.acts, i, w1.acts[i]);
    OutstandingUpdate(w.acts, i, w1.acts[i], |w.acts|);
  }

  lemma SelectSlot(w: World, i: nat)
    requires Inv(w) && Live(w, i) && w.acts[i].ctl.Handle?
    ensures var a' := w.acts[i].(ctl := Select(w.acts[i].ctl.m, [AP_REPLY], w.nextTag));
            ActorOk(w.s, a') && SlotOk(a', w.nextTag + 1, w.results)
  {
    ActorAt(w, i);
  }

  lemma SlotsMore(w: World)
    requires SlotsOk(w)
    ensures SlotsOk(w.(nextTag := w.nextTag + 1))
    ensures w.nextTag !in w.results
    ensures forall j :: 0 <= j < |w.acts| ==> Calling(w.acts[j].ctl) < w.nextTag
  {
    forall j | 0 <= j < |w.acts| ensures SlotOk(w.acts[j], w.nextTag + 1, w.results) && Calling(w.acts[j].ctl) < w.nextTag {
      assert SlotOk(w.acts[j], w.nextTag, w.results);
    }
  }

  lemma FinishOk(w: World, i: nat, r: int)
    requires Inv(w) && Live(w, i) && w.s.curr == w.acts[i].pid && w.acts[i].ctl.Handle?
    ensures Inv(StepFinish(w, i, r))
  {
    hide SchedOk, CallsOk, Outstanding, Frame, BoxItems, SlotsOk;
    ActorAt(w, i);
    MineRuns(w, i);
    FrameSelf(w.s, w.s.curr);
    var a := w.acts[i];
    var m := a.ctl.m;
    var w1 := SetCtl(w, i, Leave);
    PlainStep(w, i, w.s, a.(ctl := Leave));
    assert Inv(w1);
    if m.replyTo >= 0 {
      Answered(w, i);
      ActorAt(w, m.replyTo);
      NewResult(w1, m.tag, r);
      PostOk(w1.(results := w.results[m.tag := r]), m.replyTo, Msg(AP_REPLY, r, 0, 0, 0, -1, m.tag));
    }
  }

  /** When a handler is over, nothing else of its call is outstanding. */
  lemma Answered(w: World, i: nat)
    requires Inv(w) && Live(w, i) && w.acts[i].ctl.Handle? && w.acts[i].ctl.m.replyTo >= 0
    ensures var m := w.acts[i].ctl.m;
            var w1 := SetCtl(w, i, Leave);
            && m.replyTo < |w.acts| && Calling(w.acts[m.replyTo].ctl) == m.tag && i != m.replyTo
            && forall e :: e in Outstanding(w1.acts, |w1.acts|) ==> e.1 != m.tag
  {
    hide SchedOk, Outstanding, BoxItems, SlotsOk, ActorsOk;
    var a := w.acts[i];
    var m := a.ctl.m;
    var e := (m.replyTo, m.tag);
    var a' := a.(ctl := Leave);
    assert e in Items(a, i);
    ItemOutstanding(w.acts, i, e, |w.acts|);
    OutstandingUpdate(w.acts, i, a', |w.acts|);
    var o, o' := Outstanding(w.acts, |w.acts|), Outstanding(w.acts[i := a'], |w.acts|);
    assert o'[e] == 0;
    forall x | x in o' ensures x.1 != m.tag {
      assert x in o;
      assert Calling(w.acts[x.0].ctl) == x.1;
    }
  }

  /** The result of a call of which nothing else is outstanding can be recorded. */
  lemma NewResult(w: World, t: nat, r: int)
    requires Inv(w) && t < w.nextTag && forall e :: e in Outstanding(w.acts, |w.acts|) ==> e.1 != t
    ensures Inv(w.(results := w.results[t := r]))
  {
    hide SchedOk, Outstanding, BoxItems, ActorOk, CallsOk;
    forall j | 0 <= j < |w.acts| ensures SlotOk(w.acts[j], w.nextTag, w.results[t := r]) {
      var a := w.acts[j];
      assert SlotOk(a, w.nextTag, w.results);
      forall k | 0 <= k < |a.box| ensures MsgOk(a.box[k], w.results[t := r]) {
        var m := a.box[k];
        MsgInBox(a.box, k, j);
        if m.meth == AP_REPLY {
          ItemOutstanding(w.acts, j, (j as int, m.tag), |w.acts|);
        } else if m.replyTo >= 0 {
          ItemOutstanding(w.acts, j, (m.replyTo, m.tag), |w.acts|);
        }
      }
      if Current(a.ctl) && a.ctl.m.replyTo >= 0 {
        ItemOutstanding(w.acts, j, (a.ctl.m.replyTo, a.ctl.m.tag), |w.acts|);
      }
    }
  }

  /** Every step of an actor keeps the invariant. */
  lemma StepOk(w: World, i: nat, step: Step)
    requires Inv(w) && Enabled(w, i, step)
    ensures Inv(Next(w, i, step))
  {
    hide Inv, Post, StepRecv, StepScan, StepFinish, StepCall;
    match step
    case DoRecv => RecvOk(w, i);
    case DoLock => LockStepOk(w, i, Handle(w.acts[i].ctl.m));
    case DoSend(to, m) => SendOk(w, to, m);
    case DoCall(to, m) => CallOk(w, i, to, m);
    case DoSelect(_) => MoveOk(w, i, step);
    case DoScan => ScanOk(w, i);
    case DoRelock => var c := w.acts[i].ctl; LockStepOk(w, i, Relocked(c.m, c.wants, c.call, c.held));
    case DoRestore => RestoreOk(w, i);
    case DoNest => NestOk(w, i, step);
    case DoUnnest => NestOk(w, i, step);
    case DoSuicide => MoveOk(w, i, step);
    case DoReturn(r) => FinishOk(w, i, r);
    case DoCrash => FinishOk(w, i, AP_CRASH_REPLY);
    case DoLeave => LeaveOk(w, i);
    case DoCheck => if w.acts[i].dead { DieOk(w, i); } else { MoveOk(w, i, step); }
  }

  // ---------- steps of other processes ----------

  /** The processor changes hands, whoever had it. */
  lemma SwitchOk(w: World)
    requires Inv(w)
    ensures Inv(w.(s := Resched(w.s)))
  {
    hide SchedOk, ActorOk, SlotsOk, CallsOk, Frame;
    SchedSize(w.s);
    ReschedOk(w.s);
    FrameSwitch(w.s);
    if i :| Live(w, i) && w.acts[i].pid == w.s.curr {
      YieldOk(w, i);
    } else {
      OthersStep(w, Resched(w.s), w.gone);
    }
  }

  /** Someone who is no live actor moved; `gone` afterwards is what it should be. */
  lemma OthersStep(w: World, s': Sched, gone': set<nat>)
    requires Inv(w) && Frame(w.s, s', w.s.curr) && forall i :: Live(w, i) ==> w.acts[i].pid != w.s.curr
    requires gone' <= w.gone && (w.s.curr in gone' ==> 0 < w.s.curr < NPROC == |s'.st| && s'.st[w.s.curr] != Free && s'.st[w.s.curr] != Wait)
    requires w.s.curr in gone' ==> s'.owner != w.s.curr
    requires SchedOk(s')
    ensures Inv(w.(s := s', gone := gone'))
  {
    hide SchedOk, ActorOk, SlotsOk, CallsOk, Frame;
    var w' := w.(s := s', gone := gone');
    FrameSize(w.s, s', w.s.curr);
    forall j | 0 <= j < |w.acts| ensures ActorOk(s', w.acts[j]) {
      assert Live(w, j) <==> w.acts[j].Live();
      ActorFrame(w.s, s', w.s.curr, w.acts[j]);
    }
    assert forall j :: Live(w', j) <==> Live(w, j);
    forall p | p in gone' && p != w.s.curr ensures 0 < p < NPROC && s'.st[p] != Free && s'.st[p] != Wait && p != s'.owner {
      FrameAt(w.s, s', w.s.curr, p);
    }
    SlotsSame(w, w');
  }

  lemma FrameAt(s: Sched, s': Sched, c: int, p: nat)
    requires Frame(s, s', c) && 0 < p < NPROC && p != c
    ensures Same(s, s', p)
  {
  }

  lemma SlotsSame(w: World, w': World)
    requires SlotsOk(w) && w'.acts == w.acts && w'.nextTag == w.nextTag && w'.results == w.results
    ensures SlotsOk(w')
  {
  }

  lemma OutsideOk(w: World, s': Sched, c: int)
    requires Inv(w) && SchedOk(s') && Frame(w.s, s', c) && !IsActorProc(w, c)
    ensures Inv(w.(s := s'))
  {
    hide SchedOk, ActorOk, SlotsOk, CallsOk, Frame;
    OtherStep(w, s', c);
    SlotsSame(w, w.(s := s'));
  }

  /** A new process takes a free slot, which no actor process is in. */
  lemma CreateFrame(w: World, block: int)
    requires Inv(w) && block !in InUse(w.s)
    ensures var p := FreeSlot(w.s.st, 1);
            && SchedOk(Create(w.s, block)) && Frame(w.s, Create(w.s, block), p) && !IsActorProc(w, p)
            && (p < NPROC && block != 0 ==> 0 < p && Create(w.s, block).st[p] == Ready && Create(w.s, block).owner != p)
  {
    hide SlotsOk, CallsOk, CountsOk;
    CreateOk(w.s, block);
    forall i | Live(w, i) ensures w.acts[i].pid != FreeSlot(w.s.st, 1) {
      assert ActorOk(w.s, w.acts[i]);
    }
  }

  lemma SpawnOk(w: World, block: int)
    requires Inv(w) && block !in InUse(w.s)
    ensures Inv(Spawn(w, block))
  {
    hide SchedOk, SlotsOk, CallsOk, Outstanding, Frame, BoxItems, ActorOk, Create;
    SchedSize(w.s);
    CreateFrame(w, block);
    var p := FreeSlot(w.s.st, 1);
    var s' := Create(w.s, block);
    var w1 := w.(s := s');
    OutsideOk(w, s', p);
    SchedSize(s');
    var id := FreeActor(w.acts, 0);
    if !(id == |w.acts| && id >= AP_NACT) {
      var a := Actor(if p == NPROC || block == 0 then -1 else p, [], false, false, Recv);
      FreshActorOk(s', a);
      if id == |w.acts| {
        SpawnNew(w1, a);
      } else {
        SpawnReuse(w1, id, a);
      }
    }
  }

  lemma FreshActorOk(s: Sched, a: Actor)
    requires |s.st| == NPROC && a == Actor(a.pid, [], false, false, Recv)
    requires a.pid != -1 ==> 0 < a.pid < NPROC && s.st[a.pid] == Ready && s.owner != a.pid
    ensures ActorOk(s, a)
  {
  }

  /** A slot nobody runs is emptied and given to `a`. */
  lemma SpawnReuse(w: World, id: nat, a: Actor)
    requires Inv(w) && id < |w.acts| && w.acts[id].pid == -1
    requires a == Actor(a.pid, [], false, false, Recv) && ActorOk(w.s, a) && (a.Live() ==> !IsActorProc(w, a.pid))
    ensures Inv(SetActor(w, id, a).(discarded := w.discarded + |w.acts[id].box|))
  {
    hide SchedOk, CallsOk, Outstanding, BoxItems, ActorOk;
    var w' := SetActor(w, id, a).(discarded := w.discarded + |w.acts[id].box|);
    EmptyItems(w, id, a);
    CallsShrink(w.acts, id, a);
    OutstandingUpdate(w.acts, id, a, |w.acts|);
    LiveAfter(w, id, a, w');
  }

  lemma LiveAfter(w: World, id: nat, a: Actor, w': World)
    requires Inv(w) && id < |w.acts| && w.acts[id].pid == -1 && w'.acts == w.acts[id := a] && w'.gone == w.gone && w'.s == w.s
    requires a.Live() ==> !IsActorProc(w, a.pid)
    ensures ProcsOk(w')
  {
    hide SchedOk, CallsOk, Outstanding, BoxItems, ActorOk, SlotsOk;
    assert forall j :: j != id ==> (Live(w', j) <==> Live(w, j));
    forall i, j | Live(w', i) && Live(w', j) && i != j ensures w'.acts[i].pid != w'.acts[j].pid {
      if i == id {
        assert Live(w, j);
      } else if j == id {
        assert Live(w, i);
      }
    }
  }

  lemma EmptyItems(w: World, id: nat, a: Actor)
    requires Inv(w) && id < |w.acts| && w.acts[id].pid == -1 && a.box == [] && a.ctl == Recv
    ensures Items(a, id) == multiset{} && Calling(w.acts[id].ctl) == -1
  {
    ActorAt(w, id);
  }

  lemma SpawnNew(w: World, a: Actor)
    requires Inv(w) && |w.acts| < AP_NACT
    requires a == Actor(a.pid, [], false, false, Recv) && ActorOk(w.s, a) && (a.Live() ==> !IsActorProc(w, a.pid))
    ensures Inv(w.(acts := w.acts + [a]))
  {
    hide SchedOk, BoxItems, ActorOk, Outstanding, Items, SlotOk, Calling, IsActorProc;
    var w' := w.(acts := w.acts + [a]);
    var n := |w.acts|;
    OutstandingAppend(w.acts, a, n);
    NewItems(w, a);
    NewProcs(w, a);
    NotCalling(a);
    var o, o' := Outstanding(w.acts, n), Outstanding(w'.acts, n + 1);
    assert o' == o;
    assert forall j :: 0 <= j < n ==> w'.acts[j] == w.acts[j];
    forall e | e in o' ensures o'[e] == 1 && 0 <= e.0 < n + 1 && Calling(w'.acts[e.0].ctl) == e.1 {
      assert e in o;
    }
    assert SlotOk(a, w.nextTag, w.results) by { FreshSlotOk(w, a); }
  }

  lemma NotCalling(a: Actor)
    requires a.ctl == Recv
    ensures Calling(a.ctl) == -1
  {
  }

  lemma FreshSlotOk(w: World, a: Actor)
    requires a.box == [] && a.ctl == Recv
    ensures SlotOk(a, w.nextTag, w.results)
  {
  }

  lemma NewProcs(w: World, a: Actor)
    requires Inv(w) && |w.acts| < AP_NACT && (a.Live() ==> !IsActorProc(w, a.pid))
    ensures ProcsOk(w.(acts := w.acts + [a]))
  {
    hide SchedOk, ActorOk, SlotsOk, CallsOk, CountsOk;
    SchedSize(w.s);
    var w' := w.(acts := w.acts + [a]);
    var n := |w.acts|;
    assert forall j :: j != n ==> (Live(w', j) <==> Live(w, j));
    forall i, j | Live(w', i) && Live(w', j) && i != j ensures w'.acts[i].pid != w'.acts[j].pid {
      if i == n {
        assert Live(w, j);
      } else if j == n {
        assert Live(w, i);
      }
    }
  }

  lemma NewItems(w: World, a: Actor)
    requires a.box == [] && a.ctl == Recv
    ensures var acts := w.acts + [a];
            && Outstanding(acts, |acts|) == Outstanding(acts, |w.acts|)
            && Queued(acts, |acts|) == Queued(acts, |w.acts|)
  {
  }

  /** Every step of any other process, of the timer and of a spawning handler keeps the invariant. */
  lemma EnvOk(w: World, e: Env)
    requires Inv(w) && EnvEnabled(w, e)
    ensures Inv(EnvNext(w, e))
  {
    hide Inv, Post, Spawn, SchedOk, Frame;
    InvSched(w);
    SchedSize(w.s);
    FrameSwitch(w.s);
    match e
    case Timer => SwitchOk(w);
    case GoneExits => ExitGone(w);
    case NewActor(b) => SpawnOk(w, b);
    case Sends(to, m) => SendOk(w, to, m);
    case Yields => SwitchOk(w);
    case Blocks => BlockOk(w.s); OutsideOk(w, Block(w.s), w.s.curr);
    case Exits => ExitOk(w.s); OutsideOk(w, Exit(w.s), w.s.curr);
    case Wakes(p) => MakeReadyOk(w.s, p); FrameReady(w.s, p); OutsideOk(w, MakeReady(w.s, p), p);
    case Kills(p) => KillOk(w.s, p); FrameReady(w.s, p); OutsideOk(w, Kill(w.s, p), p);
    case Creates(b) => CreateFrame(w, b); OutsideOk(w, Create(w.s, b), FreeSlot(w.s.st, 1));
    case Locks =>
      LockKeeps(w.s);
      FrameLock(w.s);
      if CanLock(w.s) { OutsideOk(w, Lock(w.s), w.s.curr); } else { assert w.(s := Lock(w.s)) == w; }
    case Unlocks => LockKeeps(w.s); FrameLock(w.s); OutsideOk(w, Unlock(w.s), w.s.curr);
  }

  lemma InvSched(w: World)
    requires Inv(w)
    ensures SchedOk(w.s)
  {
  }

  lemma ExitGone(w: World)
    requires Inv(w) && w.s.curr in w.gone
    ensures Inv(w.(s := Exit(w.s), gone := w.gone - {w.s.curr}))
  {
    hide SchedOk, ActorOk, SlotsOk, CallsOk, Frame;
    SchedSize(w.s);
    ExitOk(w.s);
    FrameSwitch(w.s);
    OthersStep(w, Exit(w.s), w.gone - {w.s.curr});
  }

  // ---------- main results about states ----------

  /** No lost wakeup: a waiting actor has nothing in its mailbox that it would accept. */
  lemma NoLostWakeup(w: World, i: nat)
    requires Inv(w) && Live(w, i)
    ensures w.s.st[w.acts[i].pid] == Wait <==> w.acts[i].waiting
    ensures w.acts[i].waiting && w.acts[i].ctl.Recv? ==> w.acts[i].box == []
    ensures w.acts[i].waiting && w.acts[i].ctl.Parked? ==> forall k :: 0 <= k < |w.acts[i].box| ==> w.acts[i].box[k].meth !in w.acts[i].ctl.wants
    ensures w.acts[i].waiting ==> w.acts[i].ctl.Recv? || w.acts[i].ctl.Parked?
  {
    assert ActorOk(w.s, w.acts[i]);
  }

  /** An actor has at most one request or reply outstanding, and only while it is in that call. */
  lemma OneOutstanding(w: World, e: (int, nat), f: (int, nat))
    requires Inv(w) && e in Outstanding(w.acts, |w.acts|) && f in Outstanding(w.acts, |w.acts|) && e.0 == f.0
    ensures e == f && Outstanding(w.acts, |w.acts|)[e] == 1
    ensures 0 <= e.0 < |w.acts| && w.acts[e.0].Live() && Calling(w.acts[e.0].ctl) == e.1
  {
    hide SchedOk, Outstanding, SlotsOk;
    SchedSize(w.s);
    assert ActorOk(w.s, w.acts[e.0]);
  }

  /** At most one actor is in a handler with the lock; the lock's owner is not waiting or gone. */
  lemma OneHandlerAtATime(w: World, i: nat, j: nat)
    requires Inv(w) && Live(w, i) && Live(w, j) && Holding(w.acts[i].ctl) && Holding(w.acts[j].ctl)
    ensures i == j && w.s.depth > 0 && w.s.st[w.acts[i].pid] != Wait
  {
    assert ActorOk(w.s, w.acts[i]) && ActorOk(w.s, w.acts[j]);
  }
}
