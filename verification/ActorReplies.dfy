/**
 Where messages and answers go: every post arrives or is counted as dropped, and in every run a
 synchronous call is on its way, answered, or lost in one of four named ways.
 */
module ActorReplies {
  import opened Mailbox
  import opened ReadyList
  import opened Actors
  import opened ActorInvariant
  import opened ActorRuns

  // ---------- one post ----------

  /** Actor `to` can be sent to: it has a process and room in its mailbox. */
  predicate Accepts(w: World, to: int) {
    Live(w, to) && |w.acts[to].box| < AP_QLEN - 1
  }

  /** A message that can be delivered is the newest in the mailbox and its reader is ready if it waited; nobody else notices. */
  lemma PostDelivers(w: World, to: int, m: Msg)
    requires Inv(w) && Accepts(w, to)
    ensures var a, w' := w.acts[to], Post(w, to, m);
            && w'.acts == w.acts[to := a.(box := a.box + [m], waiting := false)]
            && |w'.s.st| == NPROC && 0 < a.pid < NPROC
            && (a.waiting ==> w'.s.st[a.pid] == Ready && w'.s.q == w.s.q + [a.pid])
            && (!a.waiting ==> w'.s == w.s)
            && w'.drops == w.drops && w'.accepted == w.accepted + 1 && w'.results == w.results && w'.nextTag == w.nextTag
  {
    hide CallsOk, CountsOk, ProcsOk;
    SchedSize(w.s);
    assert ActorOk(w.s, w.acts[to]);
  }

  /** One that cannot be delivered is counted under its reason and changes nothing else. */
  lemma PostDrops(w: World, to: int, m: Msg)
    requires Inv(w) && !Accepts(w, to)
    ensures Post(w, to, m).(posts := w.posts, drops := w.drops) == w
    ensures var d := Post(w, to, m).drops;
            if to < 0 || to >= |w.acts| then d == w.drops.(oob := w.drops.oob + 1)
            else if w.acts[to].pid == -1 then d == w.drops.(dead := w.drops.dead + 1)
            else d == w.drops.(full := w.drops.full + 1)
  {
    hide CallsOk, CountsOk, ProcsOk, ActorsOk;
    SchedSize(w.s);
    if Live(w, to) {
      ActorAt(w, to);
    }
  }

  // ---------- requests and replies ----------

  /**
   The end of a handler answers its caller: unless the caller's mailbox is full, the caller, which
   is another live actor still in that call, has the reply as its newest message and is ready.
   */
  lemma ReplyPosted(w: World, i: nat, step: Step, r: int)
    requires Inv(w) && Enabled(w, i, step) && (step == DoReturn(r) || (step == DoCrash && r == AP_CRASH_REPLY))
    requires w.acts[i].ctl.m.replyTo >= 0
    ensures var m, w' := w.acts[i].ctl.m, Next(w, i, step);
            var c := m.replyTo;
            && c < |w.acts| && c != i && Live(w, c) && Calling(w.acts[c].ctl) == m.tag
            && |w'.acts| == |w.acts| && w'.acts[i].ctl == Leave && w'.results == w.results[m.tag := r]
            && |w'.s.st| == NPROC && 0 < w.acts[c].pid < NPROC
            && (|w.acts[c].box| < AP_QLEN - 1 ==>
                  && w'.acts[c].box == w.acts[c].box + [Msg(AP_REPLY, r, 0, 0, 0, -1, m.tag)] && !w'.acts[c].waiting
                  && (w.acts[c].waiting ==> w'.s.st[w.acts[c].pid] == Ready)
                  && w'.drops == w.drops)
            && (|w.acts[c].box| == AP_QLEN - 1 ==> w'.acts[c] == w.acts[c] && w'.drops == w.drops.(full := w.drops.full + 1))
  {
    hide Inv, Post, Outstanding;
    ReplyReady(w, i, r);
    CallerLive(w, i);
    var m := w.acts[i].ctl.m;
    var w1 := SetCtl(w, i, Leave).(results := w.results[m.tag := r]);
    var reply := Msg(AP_REPLY, r, 0, 0, 0, -1, m.tag);
    if Accepts(w1, m.replyTo) {
      PostDelivers(w1, m.replyTo, reply);
    } else {
      PostDrops(w1, m.replyTo, reply);
    }
  }

  /** The state in which the reply is posted is in shape. */
  lemma ReplyReady(w: World, i: nat, r: int)
    requires Inv(w) && Live(w, i) && w.s.curr == w.acts[i].pid && w.acts[i].ctl.Handle? && w.acts[i].ctl.m.replyTo >= 0
    ensures Inv(SetCtl(w, i, Leave).(results := w.results[w.acts[i].ctl.m.tag := r]))
  {
    hide SchedOk, CallsOk, Outstanding, Frame, BoxItems, SlotsOk;
    ActorAt(w, i);
    MineRuns(w, i);
    FrameSelf(w.s, w.s.curr);
    PlainStep(w, i, w.s, w.acts[i].(ctl := Leave));
    Answered(w, i);
    ActorAt(w, w.acts[i].ctl.m.replyTo);
    NewResult(SetCtl(w, i, Leave), w.acts[i].ctl.m.tag, r);
  }

  /** Whoever is to be answered is in that call, with a process to wake. */
  lemma CallerLive(w: World, i: nat)
    requires Inv(w) && Live(w, i) && w.acts[i].ctl.Handle? && w.acts[i].ctl.m.replyTo >= 0
    ensures var m := w.acts[i].ctl.m;
            && m.replyTo < |w.acts| && m.replyTo != i && Live(w, m.replyTo)
            && Calling(w.acts[m.replyTo].ctl) == m.tag && |w.acts[m.replyTo].box| < AP_QLEN
            && |w.s.st| == NPROC && 0 < w.acts[m.replyTo].pid < NPROC && m.tag !in w.results
  {
    hide SchedOk, CallsOk, Outstanding, Frame, BoxItems, SlotsOk;
    SchedSize(w.s);
    Answered(w, i);
    ActorAt(w, i);
    ActorAt(w, w.acts[i].ctl.m.replyTo);
  }

  /** A call's request reaches the actor it is sent to, to be answered to the caller, which then waits for that answer only. */
  lemma CallPosted(w: World, i: nat, to: int, m: Msg)
    requires Inv(w) && Enabled(w, i, DoCall(to, m))
    ensures var w' := Next(w, i, DoCall(to, m));
            && |w'.acts| == |w.acts| && w'.acts[i].ctl == Select(w.acts[i].ctl.m, [AP_REPLY], w.nextTag)
            && w'.results == w.results && w'.nextTag == w.nextTag + 1 && w.nextTag !in w.results
            && (Accepts(w, to) ==>
                  && w'.acts[to].box == w.acts[to].box + [Msg(m.meth, m.a0, m.a1, m.a2, m.a3, i, w.nextTag)]
                  && |w'.s.st| == NPROC && (w.acts[to].waiting ==> w'.s.st[w.acts[to].pid] == Ready)
                  && w'.drops == w.drops)
            && (!Accepts(w, to) ==> w'.drops.Total() == w.drops.Total() + 1)
  {
    hide Inv, Post, Outstanding;
    var w1 := SetCtl(w, i, Select(w.acts[i].ctl.m, [AP_REPLY], w.nextTag)).(nextTag := w.nextTag + 1);
    CallStarted(w, i, w1);
    assert w1.acts[i].ctl == Select(w.acts[i].ctl.m, [AP_REPLY], w.nextTag);
    var q := m.(replyTo := i, tag := w.nextTag);
    if Accepts(w, to) {
      PostDelivers(w1, to, q);
    } else {
      PostDrops(w1, to, q);
    }
  }

  /** A message sent by a handler reaches the actor it is sent to and asks for no answer. */
  lemma SendPosted(w: World, i: nat, to: int, m: Msg)
    requires Inv(w) && Enabled(w, i, DoSend(to, m))
    ensures var w' := Next(w, i, DoSend(to, m));
            && |w'.acts| == |w.acts| && w'.acts[i].ctl == w.acts[i].ctl
            && (Accepts(w, to) ==>
                  && w'.acts[to].box == w.acts[to].box + [Msg(m.meth, m.a0, m.a1, m.a2, m.a3, -1, 0)]
                  && |w'.s.st| == NPROC && (w.acts[to].waiting ==> w'.s.st[w.acts[to].pid] == Ready)
                  && w'.drops == w.drops)
            && (!Accepts(w, to) ==> w'.drops.Total() == w.drops.Total() + 1)
  {
    hide Inv, Post, Outstanding;
    var x := m.(replyTo := -1, tag := 0);
    if Accepts(w, to) {
      PostDelivers(w, to, x);
    } else {
      PostDrops(w, to, x);
    }
  }

  /** Reading takes the oldest message. */
  lemma RecvTakesOldest(w: World, i: nat)
    requires Inv(w) && Enabled(w, i, DoRecv) && w.acts[i].box != []
    ensures var w' := Next(w, i, DoRecv);
            w'.acts == w.acts[i := w.acts[i].(ctl := Got(w.acts[i].box[0]), box := w.acts[i].box[1..])] && w'.s == w.s
  {
    hide CallsOk, CountsOk, ProcsOk, SlotsOk, ActorsOk;
    InvSched(w);
  }

  /** A wait for certain methods takes the oldest message with one of them and leaves the rest in order. */
  lemma ScanTakesOldest(w: World, i: nat, k: nat)
    requires Inv(w) && Enabled(w, i, DoScan) && k < |w.acts[i].box| && w.acts[i].box[k].meth in w.acts[i].ctl.wants
    requires forall j :: 0 <= j < k ==> w.acts[i].box[j].meth !in w.acts[i].ctl.wants
    ensures var a, w' := w.acts[i], Next(w, i, DoScan);
            w'.acts == w.acts[i := a.(ctl := Handle(a.ctl.m), box := a.box[..k] + a.box[k + 1..])] && w'.s == w.s
  {
    hide CallsOk, CountsOk, ProcsOk, SlotsOk, ActorsOk;
    InvSched(w);
  }

  /** Inside a handler the lock nests: taking it again and giving it back once leaves everything as it was. */
  lemma NestThenUnnest(w: World, i: nat)
    requires Inv(w) && Enabled(w, i, DoNest)
    ensures var w1 := Next(w, i, DoNest);
            Inv(w1) && Enabled(w1, i, DoUnnest) && w1.s.depth == w.s.depth + 1 && Next(w1, i, DoUnnest) == w
  {
    StepOk(w, i, DoNest);
    ActorAt(w, i);
    NestedRelease(w.s);
  }

  // ---------- the outstanding items of a run ----------

  /** What stops being outstanding in a move. */
  ghost function Gone(w: World, m: Move): multiset<(int, nat)>
    requires Inv(w) && Can(w, m)
  {
    match m
    case By(i, DoScan) =>
      var a := w.acts[i];
      var k := FirstWanted(a.box, a.ctl.wants, 0);
      if k < |a.box| then MsgItem(a.box[k], i) else multiset{}
    case By(i, DoReturn(_)) => CtlItems(w.acts[i].ctl)
    case By(i, DoCrash) => CtlItems(w.acts[i].ctl)
    case Other(NewActor(_)) =>
      var id := FreeActor(w.acts, 0);
      if id < |w.acts| then BoxItems(w.acts[id].box, id) else multiset{}
    case _ => multiset{}
  }

  /** What becomes outstanding. */
  ghost function Come(w: World, m: Move): multiset<(int, nat)>
    requires Inv(w) && Can(w, m)
  {
    match m
    case By(i, DoCall(to, _)) => if Accepts(w, to) then multiset{(i as int, w.nextTag)} else multiset{}
    case By(i, DoReturn(_)) => Replied(w, i)
    case By(i, DoCrash) => Replied(w, i)
    case _ => multiset{}
  }

  ghost function Replied(w: World, i: nat): multiset<(int, nat)>
    requires i < |w.acts| && w.acts[i].ctl.Handle?
  {
    if Accepts(w, w.acts[i].ctl.m.replyTo) then CtlItems(w.acts[i].ctl) else multiset{}
  }

  /** One slot changed; `gone` and `came` are what it lost and got. */
  lemma UpdateItems(acts: seq<Actor>, i: nat, a: Actor, gone: multiset<(int, nat)>, came: multiset<(int, nat)>)
    requires i < |acts| && Items(acts[i], i) + came == Items(a, i) + gone
    ensures Outstanding(acts[i := a], |acts|) + gone == Outstanding(acts, |acts|) + came
  {
    hide Items, Outstanding;
    OutstandingUpdate(acts, i, a, |acts|);
    var o, o' := Outstanding(acts, |acts|), Outstanding(acts[i := a], |acts|);
    forall e ensures (o' + gone)[e] == (o + came)[e] {
      assert (Items(acts[i], i) + came)[e] == (Items(a, i) + gone)[e];
    }
  }

  lemma SameItems(acts: seq<Actor>, i: nat, a: Actor)
    requires i < |acts| && Items(acts[i], i) == Items(a, i)
    ensures Outstanding(acts[i := a], |acts|) == Outstanding(acts, |acts|)
  {
    hide Items, Outstanding;
    UpdateItems(acts, i, a, multiset{}, multiset{});
    var o, o' := Outstanding(acts, |acts|), Outstanding(acts[i := a], |acts|);
    forall e ensures o'[e] == o[e] {
      assert (o' + multiset{})[e] == (o + multiset{})[e];
    }
  }

  lemma PostItems(w: World, to: int, m: Msg)
    requires Inv(w)
    ensures |Post(w, to, m).acts| == |w.acts|
    ensures Outstanding(Post(w, to, m).acts, |w.acts|) == Outstanding(w.acts, |w.acts|) + if Accepts(w, to) then MsgItem(m, to) else multiset{}
  {
    hide Inv, Post, Outstanding, BoxItems, MsgItem;
    if Accepts(w, to) {
      var a := w.acts[to];
      PostDelivers(w, to, m);
      BoxAppend(a.box, m, to);
      var a' := a.(box := a.box + [m], waiting := false);
      UpdateItems(w.acts, to, a', multiset{}, MsgItem(m, to));
    } else {
      PostDrops(w, to, m);
    }
  }

  /** Outstanding items are conserved: whatever is outstanding after a move was so before or came with it. */
  lemma ItemsFlow(w: World, m: Move)
    requires Inv(w) && Can(w, m)
    ensures Outstanding(Do(w, m).acts, |Do(w, m).acts|) + Gone(w, m) == Outstanding(w.acts, |w.acts|) + Come(w, m)
  {
    hide Inv, Post, Spawn, StepRecv, StepScan, StepFinish, StepCall, Outstanding, BoxItems, FirstWanted, FreeActor, SchedOk;
    InvSched(w);
    match m
    case By(i, DoRecv) => FlowRecv(w, i);
    case By(i, DoScan) => FlowScan(w, i);
    case By(i, DoCall(to, x)) => FlowCall(w, i, to, x);
    case By(i, DoReturn(r)) => FlowFinish(w, i, r);
    case By(i, DoCrash) => FlowFinish(w, i, AP_CRASH_REPLY);
    case By(i, DoSend(to, x)) => PostItems(w, to, x.(replyTo := -1, tag := 0));
    case Other(Sends(to, x)) => PostItems(w, to, x.(replyTo := -1, tag := 0));
    case Other(NewActor(b)) => FlowSpawn(w, b);
    case Other(_) =>
    case By(i, step) => FlowMove(w, i, step);
  }

  lemma FlowRecv(w: World, i: nat)
    requires Inv(w) && Enabled(w, i, DoRecv)
    ensures SchedOk(w.s) && |StepRecv(w, i).acts| == |w.acts| && Outstanding(StepRecv(w, i).acts, |w.acts|) == Outstanding(w.acts, |w.acts|)
  {
    hide Inv, Outstanding, BoxItems, SchedOk;
    InvSched(w);
    RecvTakesNoReply(w, i);
    var a := w.acts[i];
    if a.box != [] {
      BoxRemove(a.box, 0, i);
      assert Remove(a.box, 0) == a.box[1..];
    }
    SameItems(w.acts, i, StepRecv(w, i).acts[i]);
  }

  lemma FlowScan(w: World, i: nat)
    requires Inv(w) && Enabled(w, i, DoScan)
    ensures SchedOk(w.s) && |StepScan(w, i).acts| == |w.acts| && Outstanding(StepScan(w, i).acts, |w.acts|) + Gone(w, By(i, DoScan)) == Outstanding(w.acts, |w.acts|)
  {
    hide Inv, Outstanding, BoxItems, SchedOk, FirstWanted;
    InvSched(w);
    var a := w.acts[i];
    var k := FirstWanted(a.box, a.ctl.wants, 0);
    if k < |a.box| {
      BoxRemove(a.box, k, i);
    }
    UpdateItems(w.acts, i, StepScan(w, i).acts[i], Gone(w, By(i, DoScan)), multiset{});
  }

  lemma FlowCall(w: World, i: nat, to: int, m: Msg)
    requires Inv(w) && Enabled(w, i, DoCall(to, m))
    ensures var w' := StepCall(w, i, to, m);
            |w'.acts| == |w.acts| && Outstanding(w'.acts, |w.acts|) == Outstanding(w.acts, |w.acts|) + Come(w, By(i, DoCall(to, m)))
  {
    hide Inv, Post, Outstanding, Items, SchedOk, MsgItem;
    var w1 := SetCtl(w, i, Select(w.acts[i].ctl.m, [AP_REPLY], w.nextTag)).(nextTag := w.nextTag + 1);
    CallStarted(w, i, w1);
    AskingItems(w, i, w1);
    var q := m.(replyTo := i, tag := w.nextTag);
    PostItems(w1, to, q);
    RequestItem(q, i, to);
  }

  lemma AskingItems(w: World, i: nat, w1: World)
    requires i < |w.acts| && w.acts[i].ctl.Handle?
    requires w1.acts == w.acts[i := w.acts[i].(ctl := Select(w.acts[i].ctl.m, [AP_REPLY], w.nextTag))]
    ensures Outstanding(w1.acts, |w.acts|) == Outstanding(w.acts, |w.acts|) && forall to :: Accepts(w1, to) == Accepts(w, to)
  {
    hide Outstanding, BoxItems;
    SameItems(w.acts, i, w1.acts[i]);
  }

  lemma RequestItem(q: Msg, i: nat, to: int)
    requires q.meth != AP_REPLY && q.replyTo == i
    ensures MsgItem(q, to) == multiset{(i as int, q.tag)}
  {
  }

  lemma FlowFinish(w: World, i: nat, r: int)
    requires Inv(w) && SchedOk(w.s) && Live(w, i) && w.s.curr == w.acts[i].pid && w.acts[i].ctl.Handle?
    ensures var w' := StepFinish(w, i, r);
            && |w'.acts| == |w.acts|
            && Outstanding(w'.acts, |w.acts|) + CtlItems(w.acts[i].ctl) == Outstanding(w.acts, |w.acts|) + Replied(w, i)
  {
    hide Inv, Post, Outstanding, BoxItems, SchedOk;
    var m := w.acts[i].ctl.m;
    var w1 := SetCtl(w, i, Leave);
    UpdateItems(w.acts, i, w1.acts[i], CtlItems(w.acts[i].ctl), multiset{});
    if m.replyTo >= 0 {
      ReplyReady(w, i, r);
      CallerLive(w, i);
      PostItems(w1.(results := w.results[m.tag := r]), m.replyTo, Msg(AP_REPLY, r, 0, 0, 0, -1, m.tag));
    }
  }

  lemma FlowSpawn(w: World, block: int)
    requires Inv(w)
    ensures var w', id := Spawn(w, block), FreeActor(w.acts, 0);
            Outstanding(w'.acts, |w'.acts|) + (if id < |w.acts| then BoxItems(w.acts[id].box, id) else multiset{}) == Outstanding(w.acts, |w.acts|)
  {
    hide Inv, Outstanding, BoxItems, SchedOk, Create, FreeActor;
    SpawnShape(w, block);
    var id := FreeActor(w.acts, 0);
    var w' := Spawn(w, block);
    if id < |w.acts| {
      ActorAt(w, id);
      EmptyBox(id);
      UpdateItems(w.acts, id, w'.acts[id], BoxItems(w.acts[id].box, id), multiset{});
    } else if w'.acts != w.acts {
      OutstandingAppend(w.acts, w'.acts[id], id);
      NewItems(w, w'.acts[id]);
    }
  }

  lemma EmptyBox(at: int)
    ensures forall c: seq<Msg> :: |c| == 0 ==> BoxItems(c, at) == multiset{}
  {
  }

  /** A new actor has an empty mailbox, reads it, and has the first slot that is free. */
  lemma SpawnShape(w: World, block: int)
    requires Inv(w)
    ensures |w.s.st| == NPROC && |w.s.stack| == NPROC
    ensures var id, w' := FreeActor(w.acts, 0), Spawn(w, block);
            && w'.results == w.results
            && (w'.acts == w.acts ||
                exists pid :: var a := Actor(pid, [], false, false, Recv); w'.acts == if id < |w.acts| then w.acts[id := a] else w.acts + [a])
            && (id < |w.acts| ==> w'.acts != w.acts || |w.acts[id].box| == 0)
  {
    hide CallsOk, CountsOk, ProcsOk, SlotsOk, ActorsOk, Create, FreeSlot;
    SchedSize(w.s);
  }

  lemma FlowMove(w: World, i: nat, step: Step)
    requires Inv(w) && Enabled(w, i, step)
    requires !step.DoRecv? && !step.DoScan? && !step.DoCall? && !step.DoReturn? && !step.DoCrash? && !step.DoSend?
    ensures var w' := Next(w, i, step); |w'.acts| == |w.acts| && Outstanding(w'.acts, |w.acts|) == Outstanding(w.acts, |w.acts|)
  {
    hide Inv, Outstanding, BoxItems, CtlItems, SameMessage, Next, SchedOk;
    MoveShape(w, i, step);
    SameMessageItems(Next(w, i, step).acts[i].ctl, w.acts[i].ctl);
    SameItems(w.acts, i, Next(w, i, step).acts[i]);
  }

  /** The same message is being handled, or none in either. */
  predicate SameMessage(c: Ctl, d: Ctl) {
    (Current(c) <==> Current(d)) && (Current(c) ==> c.m == d.m)
  }

  lemma SameMessageItems(c: Ctl, d: Ctl)
    requires SameMessage(c, d)
    ensures CtlItems(c) == CtlItems(d)
  {
  }

  /** A step that only moves its own actor along keeps the message being handled. */
  lemma MoveShape(w: World, i: nat, step: Step)
    requires Inv(w) && Enabled(w, i, step)
    requires !step.DoRecv? && !step.DoScan? && !step.DoCall? && !step.DoReturn? && !step.DoCrash? && !step.DoSend?
    ensures var w' := Next(w, i, step);
            |w'.acts| == |w.acts| && w'.acts == w.acts[i := w'.acts[i]]
    ensures Next(w, i, step).acts[i].box == w.acts[i].box && SameMessage(Next(w, i, step).acts[i].ctl, w.acts[i].ctl)
  {
    hide Inv, Resched, Lock, Unlock, UnlockAll, SchedOk;
    match step
    case DoLock =>
    case DoSelect(_) =>
    case DoRelock =>
    case DoRestore =>
    case DoLeave =>
    case DoCheck =>
    case _ =>
  }

  // ---------- where calls end up ----------

  /**
   How call `tag` came to nothing: its request or its reply was dropped, its request was thrown
   away with the slot it waited in, or was taken by a handler's select, which answers nobody.
   */
  datatype How = RequestDropped | ReplyDropped | Discarded | Selected
  datatype Loss = Loss(tag: nat, how: How)

  ghost function LostBy(w: World, m: Move): seq<Loss>
    requires Inv(w) && Can(w, m)
  {
    match m
    case By(i, DoCall(to, _)) => if Accepts(w, to) then [] else [Loss(w.nextTag, RequestDropped)]
    case By(i, DoReturn(_)) => ReplyLost(w, i)
    case By(i, DoCrash) => ReplyLost(w, i)
    case By(i, DoScan) =>
      var a := w.acts[i];
      var k := FirstWanted(a.box, a.ctl.wants, 0);
      if k < |a.box| && Asks(a.box[k]) then [Loss(a.box[k].tag, Selected)] else []
    case Other(NewActor(_)) =>
      var id := FreeActor(w.acts, 0);
      if id < |w.acts| then Discards(w.acts[id].box) else []
    case _ => []
  }

  ghost function ReplyLost(w: World, i: nat): seq<Loss>
    requires i < |w.acts| && w.acts[i].ctl.Handle?
  {
    var m := w.acts[i].ctl.m;
    if m.replyTo >= 0 && !Accepts(w, m.replyTo) then [Loss(m.tag, ReplyDropped)] else []
  }

  predicate Asks(m: Msg) { m.meth != AP_REPLY && m.replyTo >= 0 }

  function Discards(c: seq<Msg>): seq<Loss> {
    if c == [] then [] else Discards(c[..|c| - 1]) + if Asks(c[|c| - 1]) then [Loss(c[|c| - 1].tag, Discarded)] else []
  }

  ghost function LostIn(w: World, ms: seq<Move>): seq<Loss>
    requires Inv(w) && Possible(w, ms)
    decreases |ms|
  {
    if ms == [] then [] else (DoOk(w, ms[0]); LostBy(w, ms[0]) + LostIn(Do(w, ms[0]), ms[1..]))
  }

  /** Every call somebody is in is outstanding or came to nothing in a way that fits whether its handler is over. */
  ghost predicate Accounted(w: World, lost: seq<Loss>) {
    forall i :: 0 <= i < |w.acts| && Calling(w.acts[i].ctl) >= 0 ==> CallAccounted(w, lost, i, Calling(w.acts[i].ctl))
  }

  ghost predicate CallAccounted(w: World, lost: seq<Loss>, i: int, t: nat) {
    (i, t) in Outstanding(w.acts, |w.acts|) || Fate(w, lost, t)
  }

  ghost predicate Fate(w: World, lost: seq<Loss>, t: nat) {
    if t in w.results then Loss(t, ReplyDropped) in lost
    else Loss(t, RequestDropped) in lost || Loss(t, Discarded) in lost || Loss(t, Selected) in lost
  }

  /** An actor that is in a call after a move by somebody else was in it before. */
  lemma OthersCalling(w: World, m: Move, j: nat)
    requires Inv(w) && Can(w, m) && !(m.By? && m.i == j) && j < |Do(w, m).acts| && Calling(Do(w, m).acts[j].ctl) >= 0
    ensures j < |w.acts| && Do(w, m).acts[j].ctl == w.acts[j].ctl
  {
    hide Inv, Next, EnvNext;
    if Live(w, j) {
      OthersKeepCtl(w, m, j);
    } else if m.By? {
      StepElsewhere(w, m.i, m.step, j);
    } else {
      EnvElsewhere(w, m.e, j);
    }
  }

  lemma StepElsewhere(w: World, i: nat, step: Step, j: nat)
    requires Inv(w) && Enabled(w, i, step) && i != j && j < |Next(w, i, step).acts|
    ensures j < |w.acts| && Next(w, i, step).acts[j].ctl == w.acts[j].ctl
  {
    hide Inv, SchedOk, Next, StepFinish;
    InvSched(w);
    match step
    case DoReturn(r) => FinishElsewhere(w, i, r, j); NextFinish(w, i, step, r);
    case DoCrash => FinishElsewhere(w, i, AP_CRASH_REPLY, j); NextFinish(w, i, step, AP_CRASH_REPLY);
    case DoSend(to, x) => SendElsewhere(w, i, to, x, j);
    case DoCall(to, x) => AskElsewhere(w, i, to, x, j);
    case DoRecv => TakeElsewhere(w, i, step);
    case DoScan => TakeElsewhere(w, i, step);
    case _ => MoveShape(w, i, step);
  }

  lemma FinishElsewhere(w: World, i: nat, r: int, j: nat)
    requires Inv(w) && SchedOk(w.s) && Live(w, i) && w.s.curr == w.acts[i].pid && w.acts[i].ctl.Handle? && i != j
    ensures |StepFinish(w, i, r).acts| == |w.acts|
    ensures j < |w.acts| ==> StepFinish(w, i, r).acts[j].ctl == w.acts[j].ctl
  {
    hide Inv, SchedOk, Outstanding, StepFinish;
    FlowFinish(w, i, r);
    if j < |w.acts| {
      FinishKeepsCtl(w, i, r, j);
    }
  }

  lemma SendElsewhere(w: World, i: nat, to: int, m: Msg, j: nat)
    requires Inv(w) && Enabled(w, i, DoSend(to, m))
    ensures |Next(w, i, DoSend(to, m)).acts| == |w.acts|
    ensures j < |w.acts| ==> Next(w, i, DoSend(to, m)).acts[j].ctl == w.acts[j].ctl
  {
    hide Inv, SchedOk, Post, Outstanding;
    InvSched(w);
    SchedSize(w.s);
    PostItems(w, to, m.(replyTo := -1, tag := 0));
    if j < |w.acts| {
      PostKeepsCtl(w, to, m.(replyTo := -1, tag := 0), j);
    }
  }

  lemma AskElsewhere(w: World, i: nat, to: int, m: Msg, j: nat)
    requires Inv(w) && Enabled(w, i, DoCall(to, m)) && i != j
    ensures |Next(w, i, DoCall(to, m)).acts| == |w.acts|
    ensures j < |w.acts| ==> Next(w, i, DoCall(to, m)).acts[j].ctl == w.acts[j].ctl
  {
    hide Inv, SchedOk, Post, Outstanding;
    InvSched(w);
    SchedSize(w.s);
    FlowCall(w, i, to, m);
    if j < |w.acts| {
      PostKeepsCtl(SetCtl(w, i, Select(w.acts[i].ctl.m, [AP_REPLY], w.nextTag)).(nextTag := w.nextTag + 1), to, m.(replyTo := i, tag := w.nextTag), j);
    }
  }

  /** Taking a message changes only the actor's own slot. */
  lemma TakeElsewhere(w: World, i: nat, step: Step)
    requires Inv(w) && Enabled(w, i, step) && (step.DoRecv? || step.DoScan?)
    ensures |Next(w, i, step).acts| == |w.acts| && Next(w, i, step).acts == w.acts[i := Next(w, i, step).acts[i]]
  {
    hide Inv, SchedOk, FirstWanted, Block, UnlockedBlock;
    InvSched(w);
  }

  lemma EnvElsewhere(w: World, e: Env, j: nat)
    requires Inv(w) && EnvEnabled(w, e) && !Live(w, j) && j < |EnvNext(w, e).acts| && Calling(EnvNext(w, e).acts[j].ctl) >= 0
    ensures j < |w.acts| && EnvNext(w, e).acts[j].ctl == w.acts[j].ctl
  {
    hide Inv, SchedOk, Post, Spawn, Create, MakeReady, Kill, Resched, Block, Exit;
    InvSched(w);
    SchedSize(w.s);
    match e
    case NewActor(b) => SpawnShape(w, b);
    case Sends(to, x) => PostItems(w, to, x.(replyTo := -1, tag := 0)); PostKeepsCtl(w, to, x.(replyTo := -1, tag := 0), j);
    case _ =>
  }

  /** An actor that is in a call after a step of its own has just made it, or was in it and took no message. */
  lemma OwnCalling(w: World, j: nat, step: Step)
    requires Inv(w) && Enabled(w, j, step) && j < |Next(w, j, step).acts| && Calling(Next(w, j, step).acts[j].ctl) >= 0
    ensures if step.DoCall? then Calling(Next(w, j, step).acts[j].ctl) == w.nextTag
            else Calling(w.acts[j].ctl) == Calling(Next(w, j, step).acts[j].ctl)
    ensures step.DoScan? ==> FirstWanted(w.acts[j].box, w.acts[j].ctl.wants, 0) == |w.acts[j].box|
    ensures !step.DoReturn? && !step.DoCrash?
  {
    hide SchedOk, ActorsOk, ProcsOk, SlotsOk, CallsOk, CountsOk, Post;
    InvSched(w);
    SchedSize(w.s);
    match step
    case DoCall(to, m) => CallPosted(w, j, to, m);
    case DoSend(to, m) => SendPosted(w, j, to, m);
    case DoReturn(r) => FinishLeaves(w, j, r);
    case DoCrash => FinishLeaves(w, j, AP_CRASH_REPLY);
    case DoRecv =>
    case DoScan =>
    case _ => MoveShape(w, j, step);
  }

  lemma FinishLeaves(w: World, i: nat, r: int)
    requires Inv(w) && SchedOk(w.s) && Live(w, i) && w.s.curr == w.acts[i].pid && w.acts[i].ctl.Handle?
    ensures i < |StepFinish(w, i, r).acts| && StepFinish(w, i, r).acts[i].ctl == Leave
  {
    hide SchedOk, ActorsOk, ProcsOk, SlotsOk, CallsOk, CountsOk, Post;
    SchedSize(w.s);
    var m := w.acts[i].ctl.m;
    PostKeepsCtl(SetCtl(w, i, Leave).(results := w.results[m.tag := r]), m.replyTo, Msg(AP_REPLY, r, 0, 0, 0, -1, m.tag), i);
  }

  /** Where an item of a mailbox comes from. */
  lemma {:induction false} ItemInBox(c: seq<Msg>, at: int, e: (int, nat)) returns (k: nat)
    requires e in BoxItems(c, at)
    ensures k < |c| && e in MsgItem(c[k], at)
    ensures Asks(c[k]) ==> Loss(e.1, Discarded) in Discards(c)
    decreases |c|
  {
    hide MsgItem;
    var d, z := c[..|c| - 1], c[|c| - 1];
    if e in BoxItems(d, at) {
      k := ItemInBox(d, at, e);
    } else {
      k := |c| - 1;
      AskedBy(z, at, e);
    }
  }

  lemma AskedBy(m: Msg, at: int, e: (int, nat))
    requires e in MsgItem(m, at)
    ensures e.1 == m.tag && (m.meth == AP_REPLY ==> e.0 == at) && (m.meth != AP_REPLY ==> Asks(m) && e.0 == m.replyTo)
  {
  }

  /** An item that a move takes off while its caller stays in the call was a request whose loss is noted. */
  lemma GoneIsLost(w: World, m: Move, j: nat, t: nat)
    requires Inv(w) && Can(w, m) && (j as int, t) in Gone(w, m)
    requires j < |w.acts| && j < |Do(w, m).acts| && Calling(w.acts[j].ctl) == t == Calling(Do(w, m).acts[j].ctl)
    requires t in Do(w, m).results ==> t in w.results
    ensures t !in w.results && (Loss(t, Selected) in LostBy(w, m) || Loss(t, Discarded) in LostBy(w, m))
  {
    hide Inv, Do, BoxItems, Discards, FirstWanted, FreeActor, MsgItem;
    var e := (j as int, t);
    match m
    case By(i, DoScan) =>
      var a := w.acts[i];
      var k := FirstWanted(a.box, a.ctl.wants, 0);
      AskedBy(a.box[k], i, e);
      if i == j { ScanReturns(w, j, k); }
      MessageOk(w, i, k);
    case By(i, DoReturn(r)) => FinishResult(w, i, DoReturn(r), r);
    case By(i, DoCrash) => FinishResult(w, i, DoCrash, AP_CRASH_REPLY);
    case Other(NewActor(b)) =>
      var id := FreeActor(w.acts, 0);
      var k := ItemInBox(w.acts[id].box, id, e);
      AskedBy(w.acts[id].box[k], id, e);
      DeadNotCalling(w, id);
      MessageOk(w, id, k);
  }

  lemma ScanReturns(w: World, i: nat, k: nat)
    requires Inv(w) && Can(w, By(i, DoScan)) && k == FirstWanted(w.acts[i].box, w.acts[i].ctl.wants, 0) < |w.acts[i].box|
    ensures i < |Do(w, By(i, DoScan)).acts| && Calling(Do(w, By(i, DoScan)).acts[i].ctl) < 0
  {
    hide SchedOk, ActorsOk, ProcsOk, SlotsOk, CallsOk, CountsOk;
    InvSched(w);
  }

  lemma MessageOk(w: World, i: nat, k: nat)
    requires Inv(w) && i < |w.acts| && k < |w.acts[i].box|
    ensures MsgOk(w.acts[i].box[k], w.results)
  {
    hide SchedOk, CallsOk, ActorOk;
    ActorAt(w, i);
  }

  lemma DeadNotCalling(w: World, id: nat)
    requires Inv(w) && id < |w.acts| && w.acts[id].pid == -1
    ensures Calling(w.acts[id].ctl) < 0
  {
    ActorAt(w, id);
  }

  lemma FinishResult(w: World, i: nat, step: Step, r: int)
    requires Inv(w) && Can(w, By(i, step)) && (step == DoReturn(r) || (step == DoCrash && r == AP_CRASH_REPLY))
    requires w.acts[i].ctl.m.replyTo >= 0
    ensures w.acts[i].ctl.m.tag !in w.results && w.acts[i].ctl.m.tag in Do(w, By(i, step)).results
  {
    hide Inv, Post;
    FinishResults(w, i, r);
  }

  /** The call whose handler is over has its reply outstanding, or the loss of it is noted. */
  lemma JustAnswered(w: World, m: Move, j: nat, t: nat, v: int)
    requires Inv(w) && Concludes(w, m, t, v) && j < |w.acts| && Calling(w.acts[j].ctl) == t
    ensures (j as int, t) in Outstanding(Do(w, m).acts, |Do(w, m).acts|) || Loss(t, ReplyDropped) in LostBy(w, m)
  {
    hide Inv, Do, Outstanding, BoxItems;
    ItemsFlow(w, m);
    CallerLive(w, m.i);
    OneCaller(w, j, w.acts[m.i].ctl.m.replyTo);
    var e := (j as int, t);
    assert e in Items(w.acts[m.i], m.i);
    ItemOutstanding(w.acts, m.i, e, |w.acts|);
    var o, o' := Outstanding(w.acts, |w.acts|), Outstanding(Do(w, m).acts, |Do(w, m).acts|);
    assert (o' + Gone(w, m))[e] == (o + Come(w, m))[e];
  }

  lemma OneCaller(w: World, i: nat, j: nat)
    requires Inv(w) && i < |w.acts| && j < |w.acts| && Calling(w.acts[i].ctl) == Calling(w.acts[j].ctl) >= 0
    ensures i == j
  {
    hide SchedOk, ActorsOk, ProcsOk, SlotsOk, CountsOk, Outstanding;
  }

  /** Every move keeps account of every call. */
  lemma AccountedStep(w: World, m: Move, lost: seq<Loss>)
    requires Inv(w) && Can(w, m) && Accounted(w, lost)
    ensures Accounted(Do(w, m), lost + LostBy(w, m))
  {
    hide Inv, Do, LostBy, CallAccounted;
    var w' := Do(w, m);
    forall j | 0 <= j < |w'.acts| && Calling(w'.acts[j].ctl) >= 0
      ensures CallAccounted(w', lost + LostBy(w, m), j, Calling(w'.acts[j].ctl))
    {
      AccountedCall(w, m, lost, j, Calling(w'.acts[j].ctl));
    }
  }

  lemma AccountedCall(w: World, m: Move, lost: seq<Loss>, j: nat, t: nat)
    requires Inv(w) && Can(w, m) && Accounted(w, lost) && j < |Do(w, m).acts| && Calling(Do(w, m).acts[j].ctl) == t
    ensures CallAccounted(Do(w, m), lost + LostBy(w, m), j, t)
  {
    hide Inv, Do, LostBy, Outstanding, Can;
    if m.By? && m.i == j && m.step.DoCall? {
      NewCall(w, m, j, t);
    } else {
      WasCalling(w, m, j);
      ResultsGrow(w, m, t);
      if t !in w.results && t in Do(w, m).results {
        JustAnswered(w, m, j, t, Do(w, m).results[t]);
      } else if (j as int, t) in Outstanding(w.acts, |w.acts|) {
        StillOut(w, m, j, t);
      }
    }
  }

  lemma WasCalling(w: World, m: Move, j: nat)
    requires Inv(w) && Can(w, m) && j < |Do(w, m).acts| && Calling(Do(w, m).acts[j].ctl) >= 0
    requires !(m.By? && m.i == j && m.step.DoCall?)
    ensures j < |w.acts| && Calling(w.acts[j].ctl) == Calling(Do(w, m).acts[j].ctl)
  {
    hide Inv, Next, EnvNext;
    if m.By? && m.i == j {
      OwnCalling(w, j, m.step);
    } else {
      OthersCalling(w, m, j);
    }
  }

  lemma NewCall(w: World, m: Move, j: nat, t: nat)
    requires Inv(w) && Can(w, m) && m.By? && m.i == j && m.step.DoCall?
    requires j < |Do(w, m).acts| && Calling(Do(w, m).acts[j].ctl) == t
    ensures t == w.nextTag && t !in Do(w, m).results
    ensures (j as int, t) in Outstanding(Do(w, m).acts, |Do(w, m).acts|) || Loss(t, RequestDropped) in LostBy(w, m)
  {
    hide Inv, Outstanding, StepCall;
    CallPosted(w, j, m.step.to, m.step.m);
    ItemsFlow(w, m);
    assert Gone(w, m) == multiset{};
    var o, o' := Outstanding(w.acts, |w.acts|), Outstanding(Do(w, m).acts, |Do(w, m).acts|);
    var e := (j as int, t);
    assert (o' + Gone(w, m))[e] == (o + Come(w, m))[e];
  }

  lemma StillOut(w: World, m: Move, j: nat, t: nat)
    requires Inv(w) && Can(w, m) && (j as int, t) in Outstanding(w.acts, |w.acts|)
    requires j < |w.acts| && j < |Do(w, m).acts| && Calling(w.acts[j].ctl) == t == Calling(Do(w, m).acts[j].ctl)
    requires t in Do(w, m).results ==> t in w.results
    ensures (j as int, t) in Outstanding(Do(w, m).acts, |Do(w, m).acts|)
         || (t !in w.results && (Loss(t, Selected) in LostBy(w, m) || Loss(t, Discarded) in LostBy(w, m)))
  {
    hide Inv, Do, Outstanding, Gone, Come, LostBy, Can;
    ItemsFlow(w, m);
    var e := (j as int, t);
    var o, o' := Outstanding(w.acts, |w.acts|), Outstanding(Do(w, m).acts, |Do(w, m).acts|);
    if e in Gone(w, m) {
      GoneIsLost(w, m, j, t);
    } else {
      assert (o' + Gone(w, m))[e] == (o + Come(w, m))[e];
    }
  }

  function Count(lost: seq<Loss>, hows: set<How>): nat {
    if lost == [] then 0 else (if lost[0].how in hows then 1 else 0) + Count(lost[1..], hows)
  }

  lemma {:induction false} CountPlus(a: seq<Loss>, b: seq<Loss>, hows: set<How>)
    ensures Count(a + b, hows) == Count(a, hows) + Count(b, hows)
  {
    if |a| == 0 {
      assert a + b == b;
    } else {
      CountPlus(a[1..], b, hows);
      assert (a + b)[1..] == a[1..] + b;
    }
  }

  lemma CountOne(l: Loss, hows: set<How>)
    ensures Count([l], hows) == if l.how in hows then 1 else 0
  {
  }

  lemma {:induction false} DiscardsCount(c: seq<Msg>)
    ensures Count(Discards(c), {Discarded}) <= |c| && Count(Discards(c), {RequestDropped, ReplyDropped}) == 0
    decreases |c|
  {
    if |c| > 0 {
      var d, z := c[..|c| - 1], c[|c| - 1];
      var more := if Asks(z) then [Loss(z.tag, Discarded)] else [];
      DiscardsCount(d);
      CountPlus(Discards(d), more, {Discarded});
      CountPlus(Discards(d), more, {RequestDropped, ReplyDropped});
    }
  }

  /** Each post that is not accepted adds one to a drop counter. */
  lemma PostCounts(w: World, to: int, m: Msg)
    requires Inv(w)
    ensures Post(w, to, m).discarded == w.discarded
    ensures Post(w, to, m).drops.Total() == w.drops.Total() + if Accepts(w, to) then 0 else 1
  {
    hide Inv, MakeReady;
    InvSched(w);
    SchedSize(w.s);
    if !Accepts(w, to) {
      PostDrops(w, to, m);
    }
  }

  /** What the kernel's counters gain in a move covers the calls that move lost. */
  ghost predicate Covered(w: World, w': World, lost: seq<Loss>) {
    && w.drops.Total() + Count(lost, {RequestDropped, ReplyDropped}) <= w'.drops.Total()
    && w.discarded + Count(lost, {Discarded}) <= w'.discarded
  }

  lemma LossesCounted(w: World, m: Move)
    requires Inv(w) && Can(w, m)
    ensures Covered(w, Do(w, m), LostBy(w, m))
  {
    hide Inv, SchedOk, Post, Spawn, FreeActor, Create, Discards;
    InvSched(w);
    SchedSize(w.s);
    match m
    case By(i, DoCall(to, x)) =>
      var w1 := SetCtl(w, i, Select(w.acts[i].ctl.m, [AP_REPLY], w.nextTag)).(nextTag := w.nextTag + 1);
      CallStarted(w, i, w1);
      PostCounts(w1, to, x.(replyTo := i, tag := w.nextTag));
      CountOne(Loss(w.nextTag, RequestDropped), {RequestDropped, ReplyDropped});
      CountOne(Loss(w.nextTag, RequestDropped), {Discarded});
    case By(i, DoSend(to, x)) => PostCounts(w, to, x.(replyTo := -1, tag := 0));
    case By(i, DoReturn(r)) => ReplyCounts(w, i, r);
    case By(i, DoCrash) => ReplyCounts(w, i, AP_CRASH_REPLY);
    case By(i, DoScan) => ScanCounts(w, i);
    case By(i, step) =>
    case Other(Sends(to, x)) => PostCounts(w, to, x.(replyTo := -1, tag := 0));
    case Other(NewActor(b)) => SpawnCounts(w, b);
    case Other(e) =>
  }

  lemma ScanCounts(w: World, i: nat)
    requires Inv(w) && Enabled(w, i, DoScan)
    ensures Covered(w, Next(w, i, DoScan), LostBy(w, By(i, DoScan)))
  {
    hide Inv, FirstWanted;
    InvSched(w);
    var k := FirstWanted(w.acts[i].box, w.acts[i].ctl.wants, 0);
    if k < |w.acts[i].box| {
      CountOne(Loss(w.acts[i].box[k].tag, Selected), {RequestDropped, ReplyDropped});
      CountOne(Loss(w.acts[i].box[k].tag, Selected), {Discarded});
    }
  }

  lemma ReplyCounts(w: World, i: nat, r: int)
    requires Inv(w) && SchedOk(w.s) && Live(w, i) && w.s.curr == w.acts[i].pid && w.acts[i].ctl.Handle?
    ensures Covered(w, StepFinish(w, i, r), ReplyLost(w, i))
  {
    hide Inv, SchedOk, Post;
    var m := w.acts[i].ctl.m;
    if m.replyTo >= 0 {
      ReplyReady(w, i, r);
      CallerLive(w, i);
      PostCounts(SetCtl(w, i, Leave).(results := w.results[m.tag := r]), m.replyTo, Msg(AP_REPLY, r, 0, 0, 0, -1, m.tag));
      CountOne(Loss(m.tag, ReplyDropped), {RequestDropped, ReplyDropped});
      CountOne(Loss(m.tag, ReplyDropped), {Discarded});
    }
  }

  lemma SpawnCounts(w: World, block: int)
    requires Inv(w) && |w.s.st| == NPROC && |w.s.stack| == NPROC
    ensures var id := FreeActor(w.acts, 0);
            Covered(w, Spawn(w, block), if id < |w.acts| then Discards(w.acts[id].box) else [])
  {
    hide Inv, SchedOk, FreeActor, Create, Discards, FreeSlot;
    var id := FreeActor(w.acts, 0);
    if id < |w.acts| {
      DiscardsCount(w.acts[id].box);
    }
  }

  /** Every run keeps account of every call. */
  lemma {:induction false} AccountedRun(w: World, ms: seq<Move>, lost: seq<Loss>)
    requires Inv(w) && Possible(w, ms) && Accounted(w, lost)
    ensures Accounted(End(w, ms), lost + LostIn(w, ms)) && Covered(w, End(w, ms), LostIn(w, ms))
    decreases |ms|
  {
    hide Inv, Do, Accounted, LostBy;
    if ms == [] {
      assert lost + LostIn(w, ms) == lost;
    } else {
      DoOk(w, ms[0]);
      var w1 := Do(w, ms[0]);
      AccountedStep(w, ms[0], lost);
      LossesCounted(w, ms[0]);
      AccountedRun(w1, ms[1..], lost + LostBy(w, ms[0]));
      assert lost + LostIn(w, ms) == lost + LostBy(w, ms[0]) + LostIn(w1, ms[1..]);
      CountPlus(LostBy(w, ms[0]), LostIn(w1, ms[1..]), {RequestDropped, ReplyDropped});
      CountPlus(LostBy(w, ms[0]), LostIn(w1, ms[1..]), {Discarded});
    }
  }

  // ---------- what is outstanding, as messages ----------

  lemma {:induction false} ItemInSlot(acts: seq<Actor>, n: nat, e: (int, nat)) returns (j: nat)
    requires n <= |acts| && e in Outstanding(acts, n)
    ensures j < n && e in Items(acts[j], j)
  {
    hide Items;
    if e in Items(acts[n - 1], n - 1) {
      j := n - 1;
    } else {
      j := ItemInSlot(acts, n - 1, e);
    }
  }

  /** The reply `v` to call `t` waits in the mailbox. */
  predicate HasReply(a: Actor, t: nat, v: int) {
    exists k :: 0 <= k < |a.box| && a.box[k].meth == AP_REPLY && a.box[k].tag == t && a.box[k].a0 == v
  }

  /** Somebody has the request of actor `i`'s call `t`, in the mailbox or in hand. */
  ghost predicate Requested(w: World, i: int, t: nat) {
    exists j :: 0 <= j < |w.acts| && HasRequest(w.acts[j], i, t)
  }

  predicate HasRequest(a: Actor, i: int, t: nat) {
    || (exists k :: 0 <= k < |a.box| && a.box[k].meth != AP_REPLY && a.box[k].replyTo == i && a.box[k].tag == t)
    || (Current(a.ctl) && a.ctl.m.replyTo == i && a.ctl.m.tag == t)
  }

  lemma OutstandingMeans(w: World, i: nat, t: nat)
    requires Inv(w) && (i as int, t) in Outstanding(w.acts, |w.acts|)
    ensures i < |w.acts| && if t in w.results then HasReply(w.acts[i], t, w.results[t]) else Requested(w, i, t)
  {
    hide Inv, Outstanding, BoxItems;
    var e := (i as int, t);
    var j := ItemInSlot(w.acts, |w.acts|, e);
    ActorAt(w, j);
    var a := w.acts[j];
    if e in BoxItems(a.box, j) {
      var k := ItemInBox(a.box, j, e);
      AskedBy(a.box[k], j, e);
      MessageOk(w, j, k);
      OneOutstanding(w, e, e);
      assert a.box[k].meth != AP_REPLY ==> HasRequest(a, i, t);
    } else {
      OneOutstanding(w, e, e);
      assert Current(a.ctl) && a.ctl.m.replyTo == i && a.ctl.m.tag == t;
      assert HasRequest(a, i, t);
    }
  }

  /**
   In every run from a state in which nobody is in a call: an actor that is in a call has the
   handler's result as a reply in its mailbox once that handler is over, and before that somebody
   has its request; unless the reply was dropped, or the request dropped, thrown away with a dead
   slot or taken by a select. Drops and discards are in the kernel's counters.
   */
  lemma CallsAccounted(w: World, ms: seq<Move>, i: nat)
    requires Inv(w) && Possible(w, ms) && forall j :: 0 <= j < |w.acts| ==> Calling(w.acts[j].ctl) < 0
    requires i < |End(w, ms).acts| && Calling(End(w, ms).acts[i].ctl) >= 0
    ensures var w', lost, t := End(w, ms), LostIn(w, ms), Calling(End(w, ms).acts[i].ctl);
            && (if t in w'.results
                then HasReply(w'.acts[i], t, w'.results[t]) || Loss(t, ReplyDropped) in lost
                else Requested(w', i, t) || exists how :: how in {RequestDropped, Discarded, Selected} && Loss(t, how) in lost)
            && w.drops.Total() + Count(lost, {RequestDropped, ReplyDropped}) <= w'.drops.Total()
            && w.discarded + Count(lost, {Discarded}) <= w'.discarded
  {
    hide Inv, Outstanding, Possible, End, LostIn, HasReply, Requested;
    AccountedRun(w, ms, []);
    var w', lost := End(w, ms), LostIn(w, ms);
    assert [] + lost == lost;
    AlwaysOk(w, ms);
    var t := Calling(w'.acts[i].ctl);
    assert CallAccounted(w', lost, i, t);
    if (i as int, t) in Outstanding(w'.acts, |w'.acts|) {
      OutstandingMeans(w', i, t);
    }
  }

  // ---------- a call that came to nothing ----------

  /** Actor `i` is in call `t`, and neither its request nor its reply is anywhere. */
  ghost predicate Stuck(w: World, i: nat, t: nat) {
    i < |w.acts| && Calling(w.acts[i].ctl) == t && (i as int, t) !in Outstanding(w.acts, |w.acts|)
  }

  lemma CallerIsLive(w: World, i: nat)
    requires Inv(w) && i < |w.acts| && Calling(w.acts[i].ctl) >= 0
    ensures Live(w, i)
  {
    ActorAt(w, i);
  }

  /** Without a reply in its mailbox an actor that makes a step stays in its call. */
  lemma OwnStays(w: World, i: nat, step: Step, t: nat)
    requires Inv(w) && Enabled(w, i, step) && Stuck(w, i, t)
    ensures !step.DoCall? && !step.DoReturn? && !step.DoCrash?
    ensures i < |Next(w, i, step).acts| && Calling(Next(w, i, step).acts[i].ctl) == t
  {
    hide SchedOk, ActorsOk, ProcsOk, CallsOk, CountsOk, Outstanding, SlotOk;
    InvSched(w);
    match step
    case DoScan =>
      var k := FirstWanted(w.acts[i].box, w.acts[i].ctl.wants, 0);
      if k < |w.acts[i].box| {
        WantsReply(w, i);
        ReplyMeansCall(w, i, k);
        MsgInBox(w.acts[i].box, k, i);
        ItemOutstanding(w.acts, i, (i as int, t), |w.acts|);
        assert false;
      }
    case DoRelock =>
    case DoRestore =>
  }

  lemma WantsReply(w: World, i: nat)
    requires Inv(w) && i < |w.acts| && w.acts[i].ctl.Select? && Calling(w.acts[i].ctl) >= 0
    ensures w.acts[i].ctl.wants == [AP_REPLY]
  {
    ActorAt(w, i);
  }

  lemma StuckStep(w: World, m: Move, i: nat, t: nat)
    requires Inv(w) && Can(w, m) && Stuck(w, i, t)
    ensures Stuck(Do(w, m), i, t)
  {
    hide Inv, Outstanding, Next, EnvNext, BoxItems, FirstWanted, FreeActor, MsgItem;
    CallerIsLive(w, i);
    if m.By? && m.i == i {
      OwnStays(w, i, m.step, t);
    } else {
      OthersKeepCtl(w, m, i);
    }
    ItemsFlow(w, m);
    var e := (i as int, t);
    var o, o' := Outstanding(w.acts, |w.acts|), Outstanding(Do(w, m).acts, |Do(w, m).acts|);
    assert (o' + Gone(w, m))[e] == (o + Come(w, m))[e];
    if m.By? && (m.step.DoReturn? || m.step.DoCrash?) && e in Come(w, m) {
      ItemOutstanding(w.acts, m.i, e, |w.acts|);
      assert false;
    }
  }

  /** A call whose request and reply are gone never returns, whatever anybody does. */
  lemma {:induction false} LostCallNeverReturns(w: World, ms: seq<Move>, i: nat, t: nat)
    requires Inv(w) && Possible(w, ms) && Stuck(w, i, t)
    ensures Stuck(End(w, ms), i, t)
    decreases |ms|
  {
    hide Inv, Do, Stuck;
    if ms != [] {
      DoOk(w, ms[0]);
      StuckStep(w, ms[0], i, t);
      LostCallNeverReturns(Do(w, ms[0]), ms[1..], i, t);
    }
  }

  /** A select that takes the request of a synchronous call leaves its caller waiting for ever. */
  lemma SelectedCallNeverReturns(w: World, i: nat, k: nat, ms: seq<Move>)
    requires Inv(w) && Enabled(w, i, DoScan) && k == FirstWanted(w.acts[i].box, w.acts[i].ctl.wants, 0) < |w.acts[i].box|
    requires Asks(w.acts[i].box[k]) && ms != [] && ms[0] == By(i, DoScan) && Possible(w, ms)
    ensures var m, w' := w.acts[i].box[k], End(w, ms);
            m.replyTo < |w'.acts| && Calling(w'.acts[m.replyTo].ctl) == m.tag && m.tag !in w'.results
  {
    hide Inv, Outstanding, Possible, End, Items, FirstWanted;
    SelectedIsStuck(w, i, k);
    DoOk(w, ms[0]);
    RunOn(w, ms);
    var m := w.acts[i].box[k];
    LostCallNeverReturns(Do(w, ms[0]), ms[1..], m.replyTo, m.tag);
    NeverConcluded(Do(w, ms[0]), ms[1..], m.replyTo, m.tag);
  }

  lemma RunOn(w: World, ms: seq<Move>)
    requires Inv(w) && Possible(w, ms) && ms != []
    ensures Can(w, ms[0]) && Inv(Do(w, ms[0])) && Possible(Do(w, ms[0]), ms[1..]) && End(w, ms) == End(Do(w, ms[0]), ms[1..])
  {
    hide Inv, Do, Can;
    DoOk(w, ms[0]);
  }

  lemma SelectedIsStuck(w: World, i: nat, k: nat)
    requires Inv(w) && Enabled(w, i, DoScan) && k == FirstWanted(w.acts[i].box, w.acts[i].ctl.wants, 0) < |w.acts[i].box|
    requires Asks(w.acts[i].box[k])
    ensures var m := w.acts[i].box[k];
            m.replyTo >= 0 && Stuck(Do(w, By(i, DoScan)), m.replyTo, m.tag) && m.tag !in Do(w, By(i, DoScan)).results
  {
    hide Inv, Outstanding, BoxItems, FirstWanted;
    InvSched(w);
    var m := w.acts[i].box[k];
    var e := (m.replyTo, m.tag);
    MsgInBox(w.acts[i].box, k, i);
    assert e in Items(w.acts[i], i);
    ItemOutstanding(w.acts, i, e, |w.acts|);
    OneOutstanding(w, e, e);
    ItemsFlow(w, By(i, DoScan));
    MessageOk(w, i, k);
    var o, o' := Outstanding(w.acts, |w.acts|), Outstanding(Do(w, By(i, DoScan)).acts, |w.acts|);
    assert (o' + Gone(w, By(i, DoScan)))[e] == (o + multiset{})[e];
    if m.replyTo == i {
      WantsReply(w, i);
    }
  }

  lemma {:induction false} NeverConcluded(w: World, ms: seq<Move>, i: nat, t: nat)
    requires Inv(w) && Possible(w, ms) && Stuck(w, i, t) && t !in w.results
    ensures t !in End(w, ms).results
    decreases |ms|
  {
    hide Inv, Do, Stuck, Concludes;
    if ms != [] {
      DoOk(w, ms[0]);
      StuckStep(w, ms[0], i, t);
      ResultsGrow(w, ms[0], t);
      if t in Do(w, ms[0]).results {
        NotConcluding(w, ms[0], i, t, Do(w, ms[0]).results[t]);
      }
      NeverConcluded(Do(w, ms[0]), ms[1..], i, t);
    }
  }

  lemma NotConcluding(w: World, m: Move, i: nat, t: nat, v: int)
    requires Inv(w) && Stuck(w, i, t)
    ensures !Concludes(w, m, t, v)
  {
    hide Inv, Outstanding, BoxItems;
    if Concludes(w, m, t, v) {
      CallerLive(w, m.i);
      OneCaller(w, i, w.acts[m.i].ctl.m.replyTo);
      ItemOutstanding(w.acts, m.i, (i as int, t), |w.acts|);
      assert false;
    }
  }

  // ---------- the order of mail ----------

  /** The messages that reach actor `i`'s mailbox in a move. */
  ghost function Arrives(w: World, m: Move, i: nat): seq<Msg>
    requires Inv(w) && Can(w, m)
  {
    if !Accepts(w, i) then []
    else match m
      case By(j, DoSend(to, x)) => if to == i then [Msg(x.meth, x.a0, x.a1, x.a2, x.a3, -1, 0)] else []
      case By(j, DoCall(to, x)) => if to == i then [Msg(x.meth, x.a0, x.a1, x.a2, x.a3, j, w.nextTag)] else []
      case By(j, DoReturn(r)) => if w.acts[j].ctl.m.replyTo == i then [Msg(AP_REPLY, r, 0, 0, 0, -1, w.acts[j].ctl.m.tag)] else []
      case By(j, DoCrash) => if w.acts[j].ctl.m.replyTo == i then [Msg(AP_REPLY, AP_CRASH_REPLY, 0, 0, 0, -1, w.acts[j].ctl.m.tag)] else []
      case Other(Sends(to, x)) => if to == i then [Msg(x.meth, x.a0, x.a1, x.a2, x.a3, -1, 0)] else []
      case _ => []
  }

  /** The messages that leave it: what the actor now handles, or everything when the slot changes hands. */
  ghost function Leaves(w: World, m: Move, i: nat): seq<Msg>
    requires Inv(w) && Can(w, m) && i < |w.acts| && i < |Do(w, m).acts|
  {
    match m
    case By(j, DoRecv) => if j == i && Do(w, m).acts[i].ctl.Got? then [Do(w, m).acts[i].ctl.m] else []
    case Other(NewActor(_)) => if FreeActor(w.acts, 0) == i then w.acts[i].box else []
    case _ => []
  }

  /** A move that is not the actor's own select changes its mailbox by what leaves at the front and what arrives at the back. */
  lemma BoxMoves(w: World, m: Move, i: nat)
    requires Inv(w) && Can(w, m) && i < |w.acts| && m != By(i, DoScan)
    ensures i < |Do(w, m).acts| && w.acts[i].box + Arrives(w, m, i) == Leaves(w, m, i) + Do(w, m).acts[i].box
  {
    hide Inv, Next, EnvNext, Enabled, EnvEnabled;
    match m
    case By(j, step) => StepBox(w, j, step, i);
    case Other(e) => EnvBox(w, e, i);
  }

  lemma StepBox(w: World, j: nat, step: Step, i: nat)
    requires Inv(w) && Can(w, By(j, step)) && i < |w.acts| && !(step.DoScan? && j == i)
    ensures i < |Next(w, j, step).acts|
    ensures w.acts[i].box + Arrives(w, By(j, step), i) == Leaves(w, By(j, step), i) + Next(w, j, step).acts[i].box
  {
    hide Inv, SchedOk, Next, StepFinish;
    InvSched(w);
    match step
    case DoSend(to, x) => SendBox(w, j, to, x, i);
    case DoCall(to, x) => AskBox(w, j, to, x, i);
    case DoReturn(r) => FinishBox(w, j, r, i); NextFinish(w, j, step, r);
    case DoCrash => FinishBox(w, j, AP_CRASH_REPLY, i); NextFinish(w, j, step, AP_CRASH_REPLY);
    case DoRecv => ReadBox(w, j, i);
    case DoScan => ScanBox(w, j, i);
    case _ => MoveShape(w, j, step);
  }

  lemma EnvBox(w: World, e: Env, i: nat)
    requires Inv(w) && Can(w, Other(e)) && i < |w.acts|
    ensures i < |EnvNext(w, e).acts|
    ensures w.acts[i].box + Arrives(w, Other(e), i) == Leaves(w, Other(e), i) + EnvNext(w, e).acts[i].box
  {
    hide Inv, SchedOk, Post, Spawn, FreeActor, Create, MakeReady, Kill, Resched, Block, Exit;
    InvSched(w);
    SchedSize(w.s);
    match e
    case Sends(to, x) => PostBox(w, to, x.(replyTo := -1, tag := 0), i);
    case NewActor(b) => SpawnBox(w, b, i);
    case _ =>
  }

  lemma NextFinish(w: World, j: nat, step: Step, r: int)
    requires Inv(w) && Enabled(w, j, step) && (step == DoReturn(r) || (step == DoCrash && r == AP_CRASH_REPLY))
    ensures SchedOk(w.s) && Next(w, j, step) == StepFinish(w, j, r)
  {
    hide SchedOk, StepFinish;
  }

  lemma SendBox(w: World, j: nat, to: int, m: Msg, i: nat)
    requires Inv(w) && Enabled(w, j, DoSend(to, m)) && i < |w.acts|
    ensures i < |Next(w, j, DoSend(to, m)).acts|
    ensures Next(w, j, DoSend(to, m)).acts[i].box == w.acts[i].box + if to == i && Accepts(w, to) then [Msg(m.meth, m.a0, m.a1, m.a2, m.a3, -1, 0)] else []
  {
    hide Inv, Post;
    PostBox(w, to, m.(replyTo := -1, tag := 0), i);
  }

  lemma AskBox(w: World, j: nat, to: int, m: Msg, i: nat)
    requires Inv(w) && Enabled(w, j, DoCall(to, m)) && i < |w.acts|
    ensures i < |Next(w, j, DoCall(to, m)).acts|
    ensures Next(w, j, DoCall(to, m)).acts[i].box == w.acts[i].box + if to == i && Accepts(w, to) then [Msg(m.meth, m.a0, m.a1, m.a2, m.a3, j, w.nextTag)] else []
  {
    hide Inv, Post, Outstanding;
    var w1 := SetCtl(w, j, Select(w.acts[j].ctl.m, [AP_REPLY], w.nextTag)).(nextTag := w.nextTag + 1);
    CallStarted(w, j, w1);
    PostBox(w1, to, m.(replyTo := j, tag := w.nextTag), i);
  }

  lemma ReadBox(w: World, j: nat, i: nat)
    requires Inv(w) && Enabled(w, j, DoRecv) && i < |w.acts|
    ensures var w' := Next(w, j, DoRecv);
            && i < |w'.acts|
            && w.acts[i].box == (if i == j && w'.acts[i].ctl.Got? then [w'.acts[i].ctl.m] else []) + w'.acts[i].box
  {
    hide Inv;
    InvSched(w);
  }

  lemma ScanBox(w: World, j: nat, i: nat)
    requires Inv(w) && Enabled(w, j, DoScan) && i < |w.acts| && i != j
    ensures i < |Next(w, j, DoScan).acts| && Next(w, j, DoScan).acts[i].box == w.acts[i].box
  {
    hide Inv;
    InvSched(w);
  }

  lemma PostBox(w: World, to: int, m: Msg, i: nat)
    requires Inv(w) && i < |w.acts|
    ensures i < |Post(w, to, m).acts|
    ensures Post(w, to, m).acts[i].box == w.acts[i].box + if to == i && Accepts(w, to) then [m] else []
  {
    hide Inv, Post;
    if Accepts(w, to) {
      PostDelivers(w, to, m);
    } else {
      PostDrops(w, to, m);
    }
  }

  lemma FinishBox(w: World, j: nat, r: int, i: nat)
    requires Inv(w) && SchedOk(w.s) && Live(w, j) && w.s.curr == w.acts[j].pid && w.acts[j].ctl.Handle? && i < |w.acts|
    ensures var m := w.acts[j].ctl.m;
            && i < |StepFinish(w, j, r).acts|
            && StepFinish(w, j, r).acts[i].box == w.acts[i].box +
                 if m.replyTo == i && Accepts(w, i) then [Msg(AP_REPLY, r, 0, 0, 0, -1, m.tag)] else []
  {
    hide Inv, SchedOk, Post;
    var m := w.acts[j].ctl.m;
    if m.replyTo >= 0 {
      ReplyReady(w, j, r);
      PostBox(SetCtl(w, j, Leave).(results := w.results[m.tag := r]), m.replyTo, Msg(AP_REPLY, r, 0, 0, 0, -1, m.tag), i);
    }
  }

  lemma SpawnBox(w: World, block: int, i: nat)
    requires Inv(w) && i < |w.acts|
    ensures |w.s.st| == NPROC && |w.s.stack| == NPROC && i < |Spawn(w, block).acts|
    ensures w.acts[i].box == (if FreeActor(w.acts, 0) == i then w.acts[i].box else []) + Spawn(w, block).acts[i].box
  {
    hide Inv, SchedOk, FreeActor, Create, FreeSlot;
    InvSched(w);
    SchedSize(w.s);
  }

  ghost function ArrivedIn(w: World, ms: seq<Move>, i: nat): seq<Msg>
    requires Inv(w) && Possible(w, ms)
    decreases |ms|
  {
    if ms == [] then [] else (DoOk(w, ms[0]); Arrives(w, ms[0], i) + ArrivedIn(Do(w, ms[0]), ms[1..], i))
  }

  ghost function LeftIn(w: World, ms: seq<Move>, i: nat): seq<Msg>
    requires Inv(w) && Possible(w, ms) && i < |w.acts| && By(i, DoScan) !in ms
    decreases |ms|
  {
    if ms == [] then []
    else
      assert ms[0] in ms;
      (DoOk(w, ms[0]); BoxMoves(w, ms[0], i); Leaves(w, ms[0], i) + LeftIn(Do(w, ms[0]), ms[1..], i))
  }

  /** In every run in which an actor does not select, its mail is taken in the order in which it was accepted. */
  lemma {:induction false} MailInOrder(w: World, ms: seq<Move>, i: nat)
    requires Inv(w) && Possible(w, ms) && i < |w.acts| && By(i, DoScan) !in ms
    ensures i < |End(w, ms).acts| && w.acts[i].box + ArrivedIn(w, ms, i) == LeftIn(w, ms, i) + End(w, ms).acts[i].box
    decreases |ms|
  {
    hide Inv, Do, Arrives, Leaves, Can;
    if ms != [] {
      assert ms[0] in ms;
      DoOk(w, ms[0]);
      BoxMoves(w, ms[0], i);
      MailInOrder(Do(w, ms[0]), ms[1..], i);
      var a, b := Arrives(w, ms[0], i), ArrivedIn(Do(w, ms[0]), ms[1..], i);
      assert w.acts[i].box + (a + b) == (w.acts[i].box + a) + b;
      var c, d := Leaves(w, ms[0], i), LeftIn(Do(w, ms[0]), ms[1..], i);
      var e := End(w, ms).acts[i].box;
      assert (c + Do(w, ms[0]).acts[i].box) + b == c + (Do(w, ms[0]).acts[i].box + b);
      assert c + (d + e) == (c + d) + e;
    }
  }
}
