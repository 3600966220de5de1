/**
 Actors as processes. A step is one section the kernel runs with interrupts masked, made by
 whichever process is current; a handler's own choices (what to send, what to call, when to crash)
 are the step's arguments, so a run may do anything handlers can do.
 */
module Actors {
  import opened Mailbox
  import opened ReadyList

  const AP_NACT: nat := NPROC - 1
  /** What a synchronous caller gets when the handler it called crashed. */
  const AP_CRASH_REPLY: int := 0x80000001

  /**
   Where an actor's process is. `m` is the message being handled. `Select` is about to scan the
   mailbox for `wants`; `call` is the tag of the synchronous call that waits there, -1 for a plain
   select. `Parked` has given up the lock, held `held` times, and blocked; it may have been woken.
   */
  datatype Ctl =
    | Recv
    | Got(m: Msg)
    | Handle(m: Msg)
    | Select(m: Msg, wants: seq<int>, call: int)
    | Parked(m: Msg, wants: seq<int>, call: int, held: nat)
    | Relocked(m: Msg, wants: seq<int>, call: int, held: nat)
    | Leave
    | Check

  /** A slot of the actor table; `pid` is -1 when no process runs it. */
  datatype Actor = Actor(pid: int, box: seq<Msg>, waiting: bool, dead: bool, ctl: Ctl) {
    predicate Live() { pid != -1 }
  }

  datatype Drops = Drops(oob: nat, dead: nat, full: nat) {
    function Total(): nat { oob + dead + full }
  }

  /**
   `gone` are the processes that have left their slot and are about to exit. `results` is what the
   handler of each call came to, by tag. The rest counts messages.
   */
  datatype World = World(
    s: Sched, acts: seq<Actor>, gone: set<nat>,
    nextTag: nat, results: map<nat, int>,
    posts: nat, accepted: nat, taken: nat, discarded: nat, drops: Drops)

  predicate Live(w: World, i: int) {
    0 <= i < |w.acts| && w.acts[i].Live()
  }

  /** The tag of the call an actor is blocked in, -1 if it is in none. */
  function Calling(c: Ctl): int {
    match c
    case Select(_, _, t) => t
    case Parked(_, _, t, _) => t
    case Relocked(_, _, t, _) => t
    case _ => -1
  }

  /** Between taking the lock and giving it back. */
  predicate Holding(c: Ctl) {
    c.Handle? || c.Select? || c.Relocked? || c.Leave?
  }

  // ---------- outstanding requests and replies ----------

  /** Who a message's sender-to-be-answered is, and which call it belongs to. */
  function MsgItem(m: Msg, at: int): multiset<(int, nat)> {
    if m.meth == AP_REPLY then multiset{(at, m.tag)}
    else if m.replyTo >= 0 then multiset{(m.replyTo, m.tag)}
    else multiset{}
  }

  function BoxItems(c: seq<Msg>, at: int): multiset<(int, nat)> {
    if c == [] then multiset{} else BoxItems(c[..|c| - 1], at) + MsgItem(c[|c| - 1], at)
  }

  function CtlItems(c: Ctl): multiset<(int, nat)> {
    match c
    case Recv => multiset{}
    case Leave => multiset{}
    case Check => multiset{}
    case _ => if c.m.replyTo >= 0 then multiset{(c.m.replyTo, c.m.tag)} else multiset{}
  }

  function Items(a: Actor, at: int): multiset<(int, nat)> {
    BoxItems(a.box, at) + CtlItems(a.ctl)
  }

  /** Every request that is waiting or being handled, and every reply not yet taken. */
  function Outstanding(acts: seq<Actor>, n: nat): multiset<(int, nat)>
    requires n <= |acts|
  {
    if n == 0 then multiset{} else Outstanding(acts, n - 1) + Items(acts[n - 1], n - 1)
  }

  function Queued(acts: seq<Actor>, n: nat): nat
    requires n <= |acts|
  {
    if n == 0 then 0 else Queued(acts, n - 1) + |acts[n - 1].box|
  }

  // ---------- the invariant ----------

  /**
   One actor against the scheduler. It waits iff its flag says so, and then its mailbox holds
   nothing for it. It owns the lock exactly while handling a message and not parked.
   */
  ghost predicate ActorOk(s: Sched, a: Actor)
    requires |s.st| == NPROC
  {
    && (a.Live() ==> 0 < a.pid < NPROC && s.st[a.pid] != Free)
    && (a.waiting <==> a.Live() && s.st[a.pid] == Wait)
    && (a.waiting ==> NothingFor(a))
    && (a.Live() ==> (s.owner == a.pid <==> Holding(a.ctl)))
    && (!a.Live() ==> a.ctl == Recv)
    && (a.ctl.Parked? || a.ctl.Relocked? ==> a.ctl.held >= 1)
    && (a.ctl.Relocked? ==> s.depth == 1)
  }

  predicate NothingFor(a: Actor) {
    match a.ctl
    case Recv => a.box == []
    case Parked(_, wants, _, _) => FirstWanted(a.box, wants, 0) == |a.box|
    case _ => false
  }

  ghost predicate ActorsOk(w: World)
    requires |w.s.st| == NPROC
  {
    forall i :: 0 <= i < |w.acts| ==> ActorOk(w.s, w.acts[i])
  }

  /** Every live actor has a process to itself; processes that left their slot are about to exit. */
  ghost predicate ProcsOk(w: World)
    requires |w.s.st| == NPROC
  {
    && |w.acts| <= AP_NACT
    && (forall i, j :: Live(w, i) && Live(w, j) && i != j ==> w.acts[i].pid != w.acts[j].pid)
    && (forall i :: Live(w, i) ==> w.acts[i].pid !in w.gone)
    && (forall p :: p in w.gone ==> 0 < p < NPROC && w.s.st[p] != Free && w.s.st[p] != Wait && p != w.s.owner)
  }

  /** A message against the calls made so far: a reply carries its call's result, a request has none yet. */
  predicate MsgOk(m: Msg, results: map<nat, int>) {
    if m.meth == AP_REPLY then m.tag in results && results[m.tag] == m.a0
    else m.replyTo >= 0 ==> m.tag !in results
  }

  predicate Current(c: Ctl) {
    !(c.Recv? || c.Leave? || c.Check?)
  }

  predicate Scanning(c: Ctl) {
    c.Select? || c.Parked? || c.Relocked?
  }

  /** One slot against the calls made so far. */
  predicate SlotOk(a: Actor, nextTag: nat, results: map<nat, int>) {
    && |a.box| < AP_QLEN
    && (forall k :: 0 <= k < |a.box| ==> MsgOk(a.box[k], results))
    && (Current(a.ctl) ==> a.ctl.m.meth != AP_REPLY && MsgOk(a.ctl.m, results))
    && -1 <= Calling(a.ctl) < nextTag
    && (Scanning(a.ctl) ==> if Calling(a.ctl) >= 0 then a.ctl.wants == [AP_REPLY] else AP_REPLY !in a.ctl.wants)
  }

  ghost predicate SlotsOk(w: World) {
    && (forall i :: 0 <= i < |w.acts| ==> SlotOk(w.acts[i], w.nextTag, w.results))
    && (forall t :: t in w.results ==> t < w.nextTag)
  }

  /** Whatever is outstanding is outstanding once, and its caller is waiting for just that call. */
  ghost predicate CallsOk(acts: seq<Actor>) {
    var o := Outstanding(acts, |acts|);
    && (forall e :: e in o ==> o[e] == 1 && 0 <= e.0 < |acts| && Calling(acts[e.0].ctl) == e.1)
    && (forall i, j :: 0 <= i < j < |acts| && Calling(acts[i].ctl) >= 0 ==> Calling(acts[i].ctl) != Calling(acts[j].ctl))
  }

  /** Every post was accepted or dropped for one counted reason; every accepted message is somewhere. */
  ghost predicate CountsOk(w: World) {
    && w.posts == w.accepted + w.drops.Total()
    && w.accepted == w.taken + w.discarded + Queued(w.acts, |w.acts|)
  }

  ghost predicate Inv(w: World) {
    SchedOk(w.s) && ActorsOk(w) && ProcsOk(w) && SlotsOk(w) && CallsOk(w.acts) && CountsOk(w)
  }

  // ---------- steps ----------

  function SetActor(w: World, i: nat, a: Actor): World
    requires i < |w.acts|
  {
    w.(acts := w.acts[i := a])
  }

  function SetCtl(w: World, i: nat, c: Ctl): World
    requires i < |w.acts|
  {
    SetActor(w, i, w.acts[i].(ctl := c))
  }

  /** Enqueue and wake, or count the reason for dropping. */
  function Post(w: World, to: int, m: Msg): World
    requires |w.s.st| == NPROC
  {
    var w := w.(posts := w.posts + 1);
    if to < 0 || to >= |w.acts| then w.(drops := w.drops.(oob := w.drops.oob + 1))
    else
      var a := w.acts[to];
      if a.pid == -1 then w.(drops := w.drops.(dead := w.drops.dead + 1))
      else if |a.box| == AP_QLEN - 1 then w.(drops := w.drops.(full := w.drops.full + 1))
      else
        SetActor(w, to, a.(box := a.box + [m], waiting := false))
          .(s := if a.waiting then MakeReady(w.s, a.pid) else w.s, accepted := w.accepted + 1)
  }

  datatype Step =
    | DoRecv
    | DoLock
    | DoSend(to: int, m: Msg)
    | DoCall(to: int, m: Msg)
    | DoSelect(wants: seq<int>)
    | DoScan
    | DoRelock
    | DoRestore
    | DoNest
    | DoUnnest
    | DoSuicide
    | DoReturn(r: int)
    | DoCrash
    | DoLeave
    | DoCheck

  /** Actor `i` can make the step now: its process runs and is at that point. */
  ghost predicate Enabled(w: World, i: int, step: Step) {
    && Live(w, i) && w.s.curr == w.acts[i].pid
    && var c := w.acts[i].ctl;
       match step
       case DoRecv => c.Recv?
       case DoLock => c.Got?
       case DoSend(_, m) => c.Handle? && m.meth != AP_REPLY
       case DoCall(_, m) => c.Handle? && m.meth != AP_REPLY
       case DoSelect(wants) => c.Handle? && AP_REPLY !in wants
       case DoScan => c.Select?
       case DoRelock => c.Parked?
       case DoRestore => c.Relocked?
       case DoNest => c.Handle?
       case DoUnnest => c.Handle? && w.s.depth > 1
       case DoSuicide => c.Handle?
       case DoReturn(_) => c.Handle?
       case DoCrash => c.Handle?
       case DoLeave => c.Leave?
       case DoCheck => c.Check?
  }

  /** `ap_recv`: the oldest message, or wait. */
  ghost function StepRecv(w: World, i: nat): World
    requires SchedOk(w.s) && i < |w.acts|
  {
    var a := w.acts[i];
    if a.box == [] then SetActor(w, i, a.(waiting := true)).(s := Block(w.s))
    else SetActor(w, i, a.(box := a.box[1..], ctl := Got(a.box[0]))).(taken := w.taken + 1)
  }

  /** One round of `ap_select`: take the oldest wanted message, or let go of the lock and wait. */
  ghost function StepScan(w: World, i: nat): World
    requires SchedOk(w.s) && i < |w.acts| && w.acts[i].ctl.Select?
  {
    var a := w.acts[i];
    var c := a.ctl;
    var k := FirstWanted(a.box, c.wants, 0);
    if k < |a.box| then SetActor(w, i, a.(box := Remove(a.box, k), ctl := Handle(c.m))).(taken := w.taken + 1)
    else
      SetActor(w, i, a.(waiting := true, ctl := Parked(c.m, c.wants, c.call, Held(w.s)))).(s := UnlockedBlock(w.s))
  }

  ghost function UnlockedBlock(s: Sched): Sched
    requires SchedOk(s)
  {
    LockKeeps(s);
    Block(UnlockAll(s))
  }

  /** The handler is over with value `r`: answer the caller if there is one. */
  ghost function StepFinish(w: World, i: nat, r: int): World
    requires SchedOk(w.s) && i < |w.acts| && w.acts[i].ctl.Handle?
  {
    var m := w.acts[i].ctl.m;
    var w1 := SetCtl(w, i, Leave);
    if m.replyTo < 0 then w1
    else Post(w1.(results := w.results[m.tag := r]), m.replyTo, Msg(AP_REPLY, r, 0, 0, 0, -1, m.tag))
  }

  ghost function StepCall(w: World, i: nat, to: int, m: Msg): World
    requires SchedOk(w.s) && i < |w.acts| && w.acts[i].ctl.Handle?
  {
    var w1 := SetCtl(w, i, Select(w.acts[i].ctl.m, [AP_REPLY], w.nextTag)).(nextTag := w.nextTag + 1);
    Post(w1, to, m.(replyTo := i, tag := w.nextTag))
  }

  ghost function Next(w: World, i: nat, step: Step): World
    requires Inv(w) && Enabled(w, i, step)
  {
    var a := w.acts[i];
    match step
    case DoRecv => StepRecv(w, i)
    case DoLock => if CanLock(w.s) then SetCtl(w, i, Handle(a.ctl.m)).(s := Lock(w.s)) else w.(s := Resched(w.s))
    case DoSend(to, m) => Post(w, to, m.(replyTo := -1, tag := 0))
    case DoCall(to, m) => StepCall(w, i, to, m)
    case DoSelect(wants) => SetCtl(w, i, Select(a.ctl.m, wants, -1))
    case DoScan => StepScan(w, i)
    case DoRelock =>
      if CanLock(w.s) then SetCtl(w, i, Relocked(a.ctl.m, a.ctl.wants, a.ctl.call, a.ctl.held)).(s := Lock(w.s))
      else w.(s := Resched(w.s))
    case DoRestore => SetCtl(w, i, Select(a.ctl.m, a.ctl.wants, a.ctl.call)).(s := w.s.(depth := a.ctl.held))
    case DoNest => w.(s := Lock(w.s))
    case DoUnnest => w.(s := Unlock(w.s))
    case DoSuicide => SetActor(w, i, a.(dead := true))
    case DoReturn(r) => StepFinish(w, i, r)
    case DoCrash => StepFinish(w, i, AP_CRASH_REPLY)
    case DoLeave => SetCtl(w, i, Check).(s := UnlockAll(w.s))
    case DoCheck => if a.dead then SetActor(w, i, a.(pid := -1, ctl := Recv)).(gone := w.gone + {w.s.curr}) else SetCtl(w, i, Recv)
  }

  // ---------- what other processes and the rest of the kernel may do ----------

  /** The slot a new actor gets: the first without a process, else a new one. */
  function FreeActor(acts: seq<Actor>, i: nat): (r: nat)
    requires i <= |acts|
    ensures i <= r <= |acts|
    ensures r < |acts| ==> acts[r].pid == -1
    ensures forall j :: i <= j < r ==> acts[j].pid != -1
    decreases |acts| - i
  {
    if i == |acts| || acts[i].pid == -1 then i else FreeActor(acts, i + 1)
  }

  /** `ap_spawn`: the slot is emptied even if no process can be made for it. */
  function Spawn(w: World, block: int): World
    requires |w.s.st| == NPROC && |w.s.stack| == NPROC
  {
    var id := FreeActor(w.acts, 0);
    if id == |w.acts| && id >= AP_NACT then w
    else
      var p := FreeSlot(w.s.st, 1);
      var pid := if p == NPROC || block == 0 then -1 else p;
      var a := Actor(pid, [], false, false, Recv);
      var w1 := w.(s := Create(w.s, block));
      if id == |w.acts| then w1.(acts := w.acts + [a])
      else SetActor(w1, id, a).(discarded := w.discarded + |w.acts[id].box|)
  }

  /** Steps that are not an actor's own. */
  datatype Env =
    | Timer
    | GoneExits
    | NewActor(block: int)
    | Sends(to: int, m: Msg)
    | Yields
    | Blocks
    | Exits
    | Wakes(p: int)
    | Kills(p: int)
    | Creates(block: int)
    | Locks
    | Unlocks

  ghost predicate IsActorProc(w: World, p: int) {
    p in w.gone || exists i :: Live(w, i) && w.acts[i].pid == p
  }

  /** The current process belongs to no actor. */
  ghost predicate Outside(w: World) {
    !IsActorProc(w, w.s.curr)
  }

  /** A handler may spawn and so may anyone else; other processes leave actor processes alone. */
  ghost predicate EnvEnabled(w: World, e: Env) {
    match e
    case Timer => w.s.curr != NULLPROC
    case GoneExits => w.s.curr in w.gone
    case NewActor(b) =>
      && |w.s.st| == NPROC && |w.s.stack| == NPROC && b !in InUse(w.s)
      && (Outside(w) || exists i :: Live(w, i) && w.acts[i].pid == w.s.curr && w.acts[i].ctl.Handle?)
    case Sends(_, m) => Outside(w) && m.meth != AP_REPLY
    case Yields => Outside(w)
    case Blocks => Outside(w) && w.s.owner != w.s.curr
    case Exits => Outside(w) && w.s.owner != w.s.curr
    case Wakes(p) => Outside(w) && !IsActorProc(w, p)
    case Kills(p) => Outside(w) && !IsActorProc(w, p)
    case Creates(b) => Outside(w) && |w.s.st| == NPROC && |w.s.stack| == NPROC && b !in InUse(w.s)
    case Locks => Outside(w)
    case Unlocks => Outside(w)
  }

  ghost function EnvNext(w: World, e: Env): World
    requires Inv(w) && EnvEnabled(w, e)
  {
    match e
    case Timer => w.(s := Resched(w.s))
    case GoneExits => w.(s := Exit(w.s), gone := w.gone - {w.s.curr})
    case NewActor(b) => Spawn(w, b)
    case Sends(to, m) => Post(w, to, m.(replyTo := -1, tag := 0))
    case Yields => w.(s := Resched(w.s))
    case Blocks => w.(s := Block(w.s))
    case Exits => w.(s := Exit(w.s))
    case Wakes(p) => w.(s := MakeReady(w.s, p))
    case Kills(p) => w.(s := Kill(w.s, p))
    case Creates(b) => w.(s := Create(w.s, b))
    case Locks => w.(s := Lock(w.s))
    case Unlocks => w.(s := Unlock(w.s))
  }
}
