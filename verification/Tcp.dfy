/**
 The TCP server's connection slots and its hand-over of requests to the one worker.
 */
module Tcp {
  import opened Common

  const NCONN: nat := 4
  /** A request buffer holds this many bytes besides the terminator. */
  const CAP: nat := 32767

  datatype State = Closed | Listen | SynRcvd | Established | FinWait1 | LastAck
  datatype App = Idle | QueuedUp | Working | Done

  datatype Peer = Peer(ip: seq<Byte>, port: nat)

  /** One slot. `peerSeq` is the next byte expected, `mySeq` the next one sent. */
  datatype Conn = Conn(state: State, peer: Peer, mySeq: nat, peerSeq: nat, buf: seq<Byte>) {
    predicate Active() { state != Closed && state != Listen }
  }

  datatype Segment = Segment(peer: Peer, seqNo: nat, ack: nat, fin: bool, syn: bool, rst: bool, hasAck: bool, data: seq<Byte>)

  /** A segment we send: what it acknowledges and whether it ends the connection. */
  datatype Out = Out(peer: Peer, seqNo: nat, ackNo: nat, syn: bool, fin: bool, len: nat)

  /** Length of the canned 413 response. */
  const TOO_LARGE: nat := 121

  function Min(a: int, b: int): int {
    if a < b then a else b
  }

  /** Segments of a peer carry the bytes of its stream at their place in it. */
  ghost predicate Honest(stream: seq<Byte>, isn: int, g: Segment) {
    forall i :: 0 <= i < |g.data| && 0 <= g.seqNo + i - (isn + 1) ==>
      g.seqNo + i - (isn + 1) < |stream| && stream[g.seqNo + i - (isn + 1)] == g.data[i]
  }

  lemma PrefixIs(c: Conn, stream: seq<Byte>, isn: int)
    requires Prefix(c, stream, isn)
    ensures c.buf <= stream
  {
  }

  /** A segment delivered to the established connection `conn`, whose peer began with number `isn`. */
  datatype Delivery = Delivery(conn: nat, isn: int, g: Segment)

  /** What happens to the server: a segment arrives, the worker starts or ends a request, a response goes out. */
  datatype Event = Arrives(g: Segment) | Starts | Ends | Flushes(len: nat)

  /** The buffer holds the first bytes of the stream, up to where the peer has been acknowledged. */
  ghost predicate Prefix(c: Conn, stream: seq<Byte>, isn: int) {
    && 0 <= c.peerSeq - (isn + 1) <= |stream|
    && |c.buf| == Min(c.peerSeq - (isn + 1), CAP)
    && c.buf == stream[..|c.buf|]
  }

  /** Every segment among `seen` that reached connection `n` carried the bytes of its peer's stream. */
  ghost predicate Truthful(seen: seq<Delivery>, stream: seq<Byte>, n: nat) {
    forall k :: 0 <= k < |seen| && seen[k].conn == n ==> Honest(stream, seen[k].isn, seen[k].g)
  }

  lemma OneMore(seen: seq<Delivery>, stream: seq<Byte>, n: nat, d: Delivery)
    ensures Truthful(seen + [d], stream, n) <==> Truthful(seen, stream, n) && (d.conn == n ==> Honest(stream, d.isn, d.g))
  {
    hide Honest;
    var more := seen + [d];
    assert forall k :: 0 <= k < |seen| ==> more[k] == seen[k];
    assert more[|seen|] == d;
  }

  /** Appending what fits of an in-order segment keeps the buffer a prefix. */
  lemma AppendKeepsPrefix(c: Conn, stream: seq<Byte>, isn: int, g: Segment)
    requires Prefix(c, stream, isn) && Honest(stream, isn, g) && g.seqNo == c.peerSeq
    ensures var n := Min(|g.data|, CAP - |c.buf|);
            0 <= n && Prefix(c.(buf := c.buf + g.data[..n], peerSeq := g.seqNo + |g.data|), stream, isn)
  {
    var off := c.peerSeq - (isn + 1);
    var n := Min(|g.data|, CAP - |c.buf|);
    if |g.data| > 0 {
      var last := |g.data| - 1;
      var final := g.data[last];
      assert g.seqNo + last - (isn + 1) < |stream|;
    }
    var b := c.buf + g.data[..n];
    forall k | 0 <= k < |b| ensures k < |stream| && b[k] == stream[k] {
      if k >= |c.buf| {
        assert off == |c.buf|;
        assert g.data[k - |c.buf|] == stream[g.seqNo + (k - |c.buf|) - (isn + 1)];
      }
    }
    assert b == stream[..|b|];
  }

  /**
   Connections handed over, each once, with their requests: whole, and the beginning of the peer's
   stream as long as its segments were.
   */
  ghost predicate LogOk(handed: seq<nat>, served: seq<seq<Byte>>, seen: seq<Delivery>, born: nat, complete: seq<Byte> -> bool, stream: nat -> seq<Byte>) {
    && |served| == |handed|
    && (forall i, j :: 0 <= i < j < |handed| ==> handed[i] != handed[j])
    && (forall k :: 0 <= k < |handed| ==> handed[k] < born)
    && (forall k :: 0 <= k < |seen| ==> seen[k].conn < born)
    && (forall k :: 0 <= k < |served| ==> complete(served[k]) && (Truthful(seen, stream(handed[k]), handed[k]) ==> served[k] <= stream(handed[k])))
  }

  lemma LogServed(handed: seq<nat>, served: seq<seq<Byte>>, seen: seq<Delivery>, born: nat, complete: seq<Byte> -> bool, stream: nat -> seq<Byte>, n: nat, req: seq<Byte>)
    requires LogOk(handed, served, seen, born, complete, stream) && n < born && n !in handed && complete(req)
    requires Truthful(seen, stream(n), n) ==> req <= stream(n)
    ensures LogOk(handed + [n], served + [req], seen, born, complete, stream)
  {
    hide Truthful;
  }

  lemma LogBorn(handed: seq<nat>, served: seq<seq<Byte>>, seen: seq<Delivery>, born: nat, complete: seq<Byte> -> bool, stream: nat -> seq<Byte>)
    requires LogOk(handed, served, seen, born, complete, stream)
    ensures LogOk(handed, served, seen, born + 1, complete, stream) && born !in handed
  {
    hide Truthful;
  }

  lemma LogSeen(handed: seq<nat>, served: seq<seq<Byte>>, seen: seq<Delivery>, born: nat, complete: seq<Byte> -> bool, stream: nat -> seq<Byte>, d: Delivery)
    requires LogOk(handed, served, seen, born, complete, stream) && d.conn < born
    ensures LogOk(handed, served, seen + [d], born, complete, stream)
  {
    hide Truthful;
    forall k | 0 <= k < |served| ensures Truthful(seen + [d], stream(handed[k]), handed[k]) ==> Truthful(seen, stream(handed[k]), handed[k]) {
      OneMore(seen, stream(handed[k]), handed[k], d);
    }
  }

  // ---------- what an event does, in full ----------

  /** The state that events change. */
  datatype View = View(
    conns: seq<Conn>, inc: seq<nat>, born: nat, isnSeed: nat, dropped: nat,
    app: App, appConn: int, appReq: seq<Byte>, handed: seq<nat>, served: seq<seq<Byte>>)

  ghost predicate Sized(v: View) {
    |v.conns| == NCONN && |v.inc| == NCONN
  }

  /** How many of `n` bytes there is room for. */
  function Fits(n: nat, room: int): (r: nat)
    ensures r <= n
  {
    if room <= 0 then 0 else if n < room then n else room
  }

  ghost function WithConn(v: View, i: int, c: Conn): View
    requires Sized(v) && 0 <= i < NCONN
  {
    v.(conns := v.conns[i := c])
  }

  /** The connection after a data segment: bytes that come at the number expected are added as far as there is room. */
  function WithData(c: Conn, g: Segment): Conn {
    if g.seqNo == c.peerSeq then c.(buf := c.buf + g.data[..Fits(|g.data|, CAP - |c.buf|)], peerSeq := c.peerSeq + |g.data|)
    else c
  }

  /** A segment for the established connection in slot `i`. */
  ghost predicate Received(v: View, v': View, i: int, g: Segment, outs: seq<Out>, complete: seq<Byte> -> bool)
    requires Sized(v) && 0 <= i < NCONN
  {
    var c := v.conns[i];
    if g.rst then v' == WithConn(v, i, c.(state := Listen)) && outs == []
    else if |g.data| > 0 then DataReceived(v, v', i, WithData(c, g), outs, complete)
    else if g.fin then
      && v' == WithConn(v, i, c.(state := LastAck, peerSeq := g.seqNo + 1, mySeq := c.mySeq + 1))
      && outs == [Out(c.peer, c.mySeq, g.seqNo + 1, false, true, 0)]
    else v' == v && outs == []
  }

  /**
   With `c` in slot `i`: a whole request goes to the worker if that is idle, one that cannot get
   whole any more is refused and the connection closed, and everything received is acknowledged.
   */
  ghost predicate DataReceived(v: View, v': View, i: int, c: Conn, outs: seq<Out>, complete: seq<Byte> -> bool)
    requires Sized(v) && 0 <= i < NCONN
  {
    if complete(c.buf) && v.app == Idle then
      && v' == WithConn(v, i, c).(app := QueuedUp, appConn := i, appReq := c.buf, handed := v.handed + [v.inc[i]], served := v.served + [c.buf])
      && outs == [Out(c.peer, c.mySeq, c.peerSeq, false, false, 0)]
    else if complete(c.buf) || |c.buf| < CAP then
      v' == WithConn(v, i, c) && outs == [Out(c.peer, c.mySeq, c.peerSeq, false, false, 0)]
    else
      && v' == WithConn(v, i, c.(state := FinWait1, mySeq := c.mySeq + TOO_LARGE + 1))
      && outs == [Out(c.peer, c.mySeq, c.peerSeq, false, false, TOO_LARGE), Out(c.peer, c.mySeq + TOO_LARGE, c.peerSeq, false, true, 0)]
  }

  /** A segment from a peer without a connection: a SYN opens one in the lowest slot that is not in use, if there is one. */
  ghost predicate Opened(v: View, v': View, g: Segment, outs: seq<Out>)
    requires Sized(v)
  {
    if !g.syn then v' == v && outs == []
    else if forall j :: 0 <= j < NCONN ==> v.conns[j].Active() then v' == v.(dropped := v.dropped + 1) && outs == []
    else
      exists j :: 0 <= j < NCONN && !v.conns[j].Active() && (forall k :: 0 <= k < j ==> v.conns[k].Active())
        && v' == WithConn(v, j, Conn(SynRcvd, g.peer, v.isnSeed + 1, g.seqNo + 1, []))
                   .(inc := v.inc[j := v.born], born := v.born + 1, isnSeed := v.isnSeed + 0x100)
        && outs == [Out(g.peer, v.isnSeed, g.seqNo + 1, true, false, 0)]
  }

  /** A segment for the connection in slot `i`, whatever its state. */
  ghost predicate HandledIn(v: View, v': View, i: int, g: Segment, outs: seq<Out>, complete: seq<Byte> -> bool)
    requires Sized(v) && 0 <= i < NCONN
  {
    var c := v.conns[i];
    var acked := g.hasAck && g.ack == c.mySeq;
    if c.state == Established then Received(v, v', i, g, outs, complete)
    else if c.state == SynRcvd && g.rst then v' == WithConn(v, i, c.(state := Listen)) && outs == []
    else if c.state == SynRcvd && acked then v' == WithConn(v, i, c.(state := Established, buf := [])) && outs == []
    else if c.state == FinWait1 && acked && g.fin then
      v' == WithConn(v, i, c.(state := Listen, peerSeq := g.seqNo + 1)) && outs == [Out(c.peer, c.mySeq, g.seqNo + 1, false, false, 0)]
    else if c.state == LastAck && acked then v' == WithConn(v, i, c.(state := Listen)) && outs == []
    else v' == v && outs == []
  }

  /** A received segment goes to the connection of its peer. */
  ghost predicate Handled(v: View, v': View, g: Segment, outs: seq<Out>, complete: seq<Byte> -> bool)
    requires Sized(v)
  {
    && (forall i :: 0 <= i < NCONN && InSlot(v, i, g.peer) ==> HandledIn(v, v', i, g, outs, complete))
    && ((forall i :: 0 <= i < NCONN ==> !InSlot(v, i, g.peer)) ==> Opened(v, v', g, outs))
  }

  ghost predicate InSlot(v: View, i: int, peer: Peer)
    requires Sized(v) && 0 <= i < NCONN
  {
    v.conns[i].Active() && v.conns[i].peer == peer
  }

  /** A whole request waits in slot `i`. */
  ghost predicate Waits(v: View, i: int, complete: seq<Byte> -> bool)
    requires Sized(v) && 0 <= i < NCONN
  {
    v.conns[i].state == Established && |v.conns[i].buf| > 0 && complete(v.conns[i].buf)
  }

  ghost function Queued(v: View, i: int): View
    requires Sized(v) && 0 <= i < NCONN
  {
    var req := v.conns[i].buf;
    v.(app := QueuedUp, appConn := i, appReq := req, handed := v.handed + [v.inc[i]], served := v.served + [req])
  }

  /** An idle worker gets the request that waits in the lowest slot. */
  ghost predicate Drained(v: View, v': View, complete: seq<Byte> -> bool)
    requires Sized(v)
  {
    && (v.app != Idle || (forall i :: 0 <= i < NCONN ==> !Waits(v, i, complete)) ==> v' == v)
    && (forall i :: v.app == Idle && 0 <= i < NCONN && Waits(v, i, complete) && (forall k :: 0 <= k < i ==> !Waits(v, k, complete)) ==> v' == Queued(v, i))
  }

  /** A response of `len` bytes goes out on the connection it belongs to, with the end of that connection, unless that is over; then the next request. */
  ghost predicate Flushed(v: View, v': View, len: nat, outs: seq<Out>, complete: seq<Byte> -> bool)
    requires Sized(v)
  {
    if v.app != Done || !(0 <= v.appConn < NCONN) then v' == v && outs == []
    else
      var c := v.conns[v.appConn];
      if c.state == Established then
        && outs == [Out(c.peer, c.mySeq, c.peerSeq, false, false, len), Out(c.peer, c.mySeq + len, c.peerSeq, false, true, 0)]
        && Drained(WithConn(v, v.appConn, c.(state := FinWait1, mySeq := c.mySeq + len + 1)).(app := Idle, appConn := -1), v', complete)
      else outs == [] && Drained(v.(app := Idle, appConn := -1), v', complete)
  }

  /** No whole request waits while the worker is idle. */
  ghost predicate Settled(v: View, complete: seq<Byte> -> bool)
    requires Sized(v)
  {
    v.app == Idle ==> forall i :: 0 <= i < NCONN ==> !Waits(v, i, complete)
  }

  lemma DrainedInto(v: View, i: int, complete: seq<Byte> -> bool)
    requires Sized(v) && v.app == Idle && 0 <= i < NCONN && Waits(v, i, complete) && forall k :: 0 <= k < i ==> !Waits(v, k, complete)
    ensures Drained(v, Queued(v, i), complete)
  {
    hide Waits;
  }

  /** With the request taken, kept, or refused, that is what a data segment does. */
  lemma RequestTaken(v: View, v': View, i: int, c: Conn, outs: seq<Out>, complete: seq<Byte> -> bool)
    requires Sized(v) && 0 <= i < NCONN && complete(c.buf) && v.app == Idle
    requires v' == Queued(WithConn(v, i, c), i) && outs == [Out(c.peer, c.mySeq, c.peerSeq, false, false, 0)]
    ensures DataReceived(v, v', i, c, outs, complete)
  {
  }

  lemma RequestKept(v: View, v': View, i: int, c: Conn, outs: seq<Out>, complete: seq<Byte> -> bool)
    requires Sized(v) && 0 <= i < NCONN && (if complete(c.buf) then v.app != Idle else |c.buf| < CAP)
    requires v' == WithConn(v, i, c) && outs == [Out(c.peer, c.mySeq, c.peerSeq, false, false, 0)]
    ensures DataReceived(v, v', i, c, outs, complete)
  {
  }

  lemma RequestRefused(v: View, w: View, v': View, i: int, c: Conn, outs: seq<Out>, complete: seq<Byte> -> bool)
    requires Sized(v) && 0 <= i < NCONN && !complete(c.buf) && |c.buf| >= CAP && w == WithConn(v, i, c)
    requires v' == WithConn(w, i, c.(mySeq := c.mySeq + TOO_LARGE + 1, state := FinWait1))
    requires outs == [Out(c.peer, c.mySeq, c.peerSeq, false, false, TOO_LARGE), Out(c.peer, c.mySeq + TOO_LARGE, c.peerSeq, false, true, 0)]
    ensures DataReceived(v, v', i, c, outs, complete)
  {
    assert v'.conns == v.conns[i := c.(mySeq := c.mySeq + TOO_LARGE + 1, state := FinWait1)];
  }

  lemma NobodyHandles(v: View, v': View, g: Segment, outs: seq<Out>, complete: seq<Byte> -> bool)
    requires Sized(v) && (forall i :: 0 <= i < NCONN ==> !InSlot(v, i, g.peer)) && Opened(v, v', g, outs)
    ensures Handled(v, v', g, outs, complete)
  {
    hide Opened;
  }

  lemma FreshPrefix(c: Conn, stream: seq<Byte>, isn: int)
    requires c.peerSeq == isn + 1
    ensures Prefix(c.(state := Established, buf := []), stream, isn)
  {
  }

  /** The one connection of the segment's peer is the one that handles it. */
  lemma HandledBy(v: View, v': View, i: int, g: Segment, outs: seq<Out>, complete: seq<Byte> -> bool)
    requires Sized(v) && 0 <= i < NCONN && InSlot(v, i, g.peer) && HandledIn(v, v', i, g, outs, complete)
    requires forall j, k :: 0 <= j < k < NCONN && v.conns[j].Active() && v.conns[k].Active() ==> v.conns[j].peer != v.conns[k].peer
    ensures Handled(v, v', g, outs, complete)
  {
    hide HandledIn;
    forall j | 0 <= j < NCONN && InSlot(v, j, g.peer) ensures j == i {
    }
  }

  // ---------- runs ----------

  /** What an event does to the state. */
  ghost predicate Stepped(v: View, v': View, e: Event, complete: seq<Byte> -> bool)
    requires Sized(v)
  {
    match e
    case Arrives(g) => exists outs :: Handled(v, v', g, outs, complete)
    case Starts => v' == v.(app := if v.app == QueuedUp then Working else v.app)
    case Ends => v' == v.(app := if v.app == Working then App.Done else v.app)
    case Flushes(len) => exists outs :: Flushed(v, v', len, outs, complete)
  }

  lemma SegmentStep(v: View, v': View, g: Segment, outs: seq<Out>, complete: seq<Byte> -> bool)
    requires Sized(v) && Handled(v, v', g, outs, complete)
    ensures Stepped(v, v', Arrives(g), complete)
  {
    hide Handled;
  }

  lemma FlushStep(v: View, v': View, len: nat, outs: seq<Out>, complete: seq<Byte> -> bool)
    requires Sized(v) && Flushed(v, v', len, outs, complete)
    ensures Stepped(v, v', Flushes(len), complete)
  {
    hide Flushed;
  }

  lemma WorkerStep(v: View, v': View, e: Event, complete: seq<Byte> -> bool)
    requires Sized(v) && (e.Starts? || e.Ends?)
    requires v' == v.(app := if e.Starts? && v.app == QueuedUp then Working else if e.Ends? && v.app == Working then App.Done else v.app)
    ensures Stepped(v, v', e, complete)
  {
  }

  /** Every peer has at most one connection. */
  ghost predicate OneEach(v: View) {
    Sized(v) && forall j, k :: 0 <= j < k < NCONN && v.conns[j].Active() && v.conns[k].Active() ==> v.conns[j].peer != v.conns[k].peer
  }

  /** The states of a server through a series of events. */
  ghost predicate Run(log: seq<View>, es: seq<Event>, complete: seq<Byte> -> bool) {
    && |log| == |es| + 1
    && (forall k :: 0 <= k < |log| ==> OneEach(log[k]))
    && forall k :: 0 <= k < |es| ==> Stepped(log[k], log[k + 1], es[k], complete)
  }

  lemma RunOn(log: seq<View>, es: seq<Event>, k: nat, v: View, complete: seq<Byte> -> bool)
    requires k < |es| && Run(log, es[..k], complete) && OneEach(v) && Sized(log[k]) && Stepped(log[k], v, es[k], complete)
    ensures Run(log + [v], es[..k + 1], complete)
  {
    hide OneEach, Stepped;
  }

  /** An event does not leave a whole request waiting for an idle worker. */
  lemma StaysSettled(v: View, v': View, e: Event, complete: seq<Byte> -> bool)
    requires OneEach(v) && OneEach(v') && Settled(v, complete) && Stepped(v, v', e, complete)
    ensures Settled(v', complete)
  {
    match e
    case Arrives(g) =>
      var outs :| Handled(v, v', g, outs, complete);
      if i :| 0 <= i < NCONN && InSlot(v, i, g.peer) {
        HandledSettled(v, v', i, g, outs, complete);
      } else {
        OpenedSettled(v, v', g, outs, complete);
      }
    case Flushes(len) =>
      var outs :| Flushed(v, v', len, outs, complete);
      FlushedSettled(v, v', len, outs, complete);
    case _ =>
  }

  lemma HandledSettled(v: View, v': View, i: int, g: Segment, outs: seq<Out>, complete: seq<Byte> -> bool)
    requires Sized(v) && Sized(v') && Settled(v, complete) && 0 <= i < NCONN && HandledIn(v, v', i, g, outs, complete)
    ensures Settled(v', complete)
  {
    if v'.app == Idle {
      forall j | 0 <= j < NCONN ensures !Waits(v', j, complete) {
        assert !Waits(v, j, complete) && !Waits(v, i, complete);
      }
    }
  }

  lemma OpenedSettled(v: View, v': View, g: Segment, outs: seq<Out>, complete: seq<Byte> -> bool)
    requires Sized(v) && Sized(v') && Settled(v, complete) && Opened(v, v', g, outs)
    ensures Settled(v', complete)
  {
    if v'.app == Idle {
      forall j | 0 <= j < NCONN ensures !Waits(v', j, complete) {
        assert !Waits(v, j, complete);
      }
    }
  }

  lemma FlushedSettled(v: View, v': View, len: nat, outs: seq<Out>, complete: seq<Byte> -> bool)
    requires Sized(v) && Sized(v') && Settled(v, complete) && Flushed(v, v', len, outs, complete)
    ensures Settled(v', complete)
  {
    if v.app == App.Done && 0 <= v.appConn < NCONN {
      var c := v.conns[v.appConn];
      var w := (if c.state == Established then WithConn(v, v.appConn, c.(state := FinWait1, mySeq := c.mySeq + len + 1)) else v).(app := Idle, appConn := -1);
      DrainedSettled(w, v', complete);
    }
  }

  lemma DrainedSettled(v: View, v': View, complete: seq<Byte> -> bool)
    requires Sized(v) && Sized(v') && v.app == Idle && Drained(v, v', complete)
    ensures Settled(v', complete)
  {
    hide Waits;
    if i :| 0 <= i < NCONN && Waits(v, i, complete) {
      var k := FirstWaiting(v, i, complete);
    }
  }

  lemma FirstWaiting(v: View, i: nat, complete: seq<Byte> -> bool) returns (k: nat)
    requires Sized(v) && i < NCONN && Waits(v, i, complete)
    ensures k <= i && Waits(v, k, complete) && forall j :: 0 <= j < k ==> !Waits(v, j, complete)
  {
    hide Waits;
    if j :| 0 <= j < i && Waits(v, j, complete) {
      k := FirstWaiting(v, j, complete);
    } else {
      k := i;
    }
  }

  /** Through any series of events no whole request is left waiting for an idle worker. */
  lemma {:induction false} AlwaysSettled(log: seq<View>, es: seq<Event>, k: nat, complete: seq<Byte> -> bool)
    requires Run(log, es, complete) && Settled(log[0], complete) && k <= |es|
    ensures Settled(log[k], complete)
  {
    hide Stepped, Settled;
    if k > 0 {
      AlwaysSettled(log, es, k - 1, complete);
      assert OneEach(log[k - 1]) && OneEach(log[k]) && Stepped(log[k - 1], log[k - 1 + 1], es[k - 1], complete);
      StaysSettled(log[k - 1], log[k], es[k - 1], complete);
    }
  }

  // ---------- a request that arrives in order ----------

  predicate From(e: Event, peer: Peer) {
    e.Arrives? && e.g.peer == peer
  }

  /** The bytes a peer's segments carry, one after the other. */
  function Sent(es: seq<Event>, peer: Peer): seq<Byte> {
    if es == [] then []
    else Sent(es[..|es| - 1], peer) + if From(es[|es| - 1], peer) then es[|es| - 1].g.data else []
  }

  /** The peer's segments are data, and each begins where the one before ended. */
  predicate InSequence(es: seq<Event>, peer: Peer, next: nat) {
    es == [] ||
    (&& InSequence(es[..|es| - 1], peer, next)
     && (From(es[|es| - 1], peer) ==>
           var g := es[|es| - 1].g; !g.rst && |g.data| > 0 && g.seqNo == next + |Sent(es[..|es| - 1], peer)|))
  }

  /** An event that is not a segment of the peer of slot `i` leaves that connection alone while the worker is idle. */
  lemma OthersLeave(v: View, v': View, e: Event, i: int, complete: seq<Byte> -> bool)
    requires OneEach(v) && Sized(v') && 0 <= i < NCONN && v.conns[i].state == Established && v.app == Idle
    requires !From(e, v.conns[i].peer) && Stepped(v, v', e, complete)
    ensures v'.conns[i] == v.conns[i] && v'.inc[i] == v.inc[i]
  {
    match e
    case Arrives(g) =>
      var outs :| Handled(v, v', g, outs, complete);
      if j :| 0 <= j < NCONN && InSlot(v, j, g.peer) {
        assert j != i;
        assert HandledIn(v, v', j, g, outs, complete);
      } else {
        assert Opened(v, v', g, outs);
      }
    case _ =>
  }

  /** The next segment in order of the peer of slot `i`. */
  lemma NextData(v: View, v': View, g: Segment, i: int, complete: seq<Byte> -> bool)
    requires OneEach(v) && Sized(v') && 0 <= i < NCONN && v.conns[i].state == Established && v.app == Idle && v.conns[i].peer == g.peer
    requires Stepped(v, v', Arrives(g), complete) && !g.rst && |g.data| > 0 && g.seqNo == v.conns[i].peerSeq && |v.conns[i].buf| + |g.data| <= CAP
    ensures var c := v.conns[i].(buf := v.conns[i].buf + g.data, peerSeq := v.conns[i].peerSeq + |g.data|);
            if complete(c.buf) then v' == Queued(WithConn(v, i, c), i)
            else |c.buf| < CAP ==> v' == WithConn(v, i, c)
  {
    hide Opened;
    var outs :| Handled(v, v', g, outs, complete);
    assert InSlot(v, i, g.peer);
    assert HandledIn(v, v', i, g, outs, complete);
    assert g.data[..|g.data|] == g.data;
  }

  /** While the worker stays idle, what has come in order and is not yet whole is in the buffer. */
  lemma {:induction false} Collects(log: seq<View>, es: seq<Event>, k: nat, i: int, complete: seq<Byte> -> bool)
    requires Run(log, es, complete) && k <= |es| && 0 <= i < NCONN
    requires forall j :: 0 <= j < k ==> log[j].app == Idle
    requires log[0].conns[i].state == Established && log[0].conns[i].buf == []
    requires var c := log[0].conns[i];
             && InSequence(es[..k], c.peer, c.peerSeq) && |Sent(es[..k], c.peer)| < CAP
             && forall j :: 0 <= j <= k && Sent(es[..j], c.peer) != [] ==> !complete(Sent(es[..j], c.peer))
    ensures var c, got := log[0].conns[i], Sent(es[..k], log[0].conns[i].peer);
            log[k].conns[i] == c.(buf := got, peerSeq := c.peerSeq + |got|) && log[k].inc[i] == log[0].inc[i]
    decreases k
  {
    hide Stepped, Queued;
    var c := log[0].conns[i];
    if k == 0 {
      assert es[..0] == [];
      return;
    }
    assert es[..k][..k - 1] == es[..k - 1] && es[..k][k - 1] == es[k - 1];
    assert OneEach(log[k - 1]) && OneEach(log[k]) && Stepped(log[k - 1], log[k - 1 + 1], es[k - 1], complete);
    Collects(log, es, k - 1, i, complete);
    var got := Sent(es[..k - 1], c.peer);
    if From(es[k - 1], c.peer) {
      var g := es[k - 1].g;
      assert Sent(es[..k], c.peer) == got + g.data;
      NextData(log[k - 1], log[k], g, i, complete);
    } else {
      assert Sent(es[..k], c.peer) == got;
      OthersLeave(log[k - 1], log[k], es[k - 1], i, complete);
    }
  }

  /**
   An honest peer's request is handed over: when its segments arrive in order, with anything else
   in between as long as the worker stays idle, the one that makes the request whole gives all of
   it to the worker.
   */
  lemma RequestHandedOver(log: seq<View>, es: seq<Event>, i: int, complete: seq<Byte> -> bool)
    requires Run(log, es, complete) && 0 <= i < NCONN && es != []
    requires forall k :: 0 <= k < |es| ==> log[k].app == Idle
    requires log[0].conns[i].state == Established && log[0].conns[i].buf == []
    requires var c := log[0].conns[i];
             && InSequence(es, c.peer, c.peerSeq) && From(es[|es| - 1], c.peer)
             && complete(Sent(es, c.peer)) && |Sent(es, c.peer)| <= CAP
             && forall j :: 0 <= j < |es| && Sent(es[..j], c.peer) != [] ==> !complete(Sent(es[..j], c.peer))
    ensures var last, v', req := log[|es| - 1], log[|es|], Sent(es, log[0].conns[i].peer);
            && v'.handed == last.handed + [log[0].inc[i]] && v'.served == last.served + [req]
            && v'.app == QueuedUp && v'.appConn == i && v'.appReq == req && v'.conns[i].state == Established
  {
    hide Stepped;
    var k := |es| - 1;
    var c := log[0].conns[i];
    var g := es[k].g;
    assert es[..|es| - 1] == es[..k];
    Collects(log, es, k, i, complete);
    assert OneEach(log[k]) && OneEach(log[k + 1]) && Stepped(log[k], log[k + 1], es[k], complete);
    NextData(log[k], log[k + 1], g, i, complete);
  }

  class TcpServer {
    var conns: seq<Conn>
    var app: App
    var appConn: int
    var appReq: seq<Byte>
    var isnSeed: nat
    var dropped: nat
    /** Whether a buffer holds a whole request. */
    const complete: seq<Byte> -> bool

    /** Number of connections born so far, and which one each slot is in, with its peer's first number. */
    ghost var born: nat
    ghost var inc: seq<nat>
    ghost var isn: seq<int>
    /** What the peer of each connection sends. */
    ghost const stream: nat -> seq<Byte>
    /** Connections whose request was handed to the worker, in order, and the requests; the one it has now. */
    ghost var handed: seq<nat>
    ghost var served: seq<seq<Byte>>
    ghost var appInc: nat
    /** The segments that reached established connections. */
    ghost var seen: seq<Delivery>

    constructor (complete: seq<Byte> -> bool, ghost stream: nat -> seq<Byte>, seed: nat)
      ensures Valid() && this.complete == complete && this.stream == stream && handed == [] && served == [] && seen == [] && born == 0
    {
      this.complete, this.stream := complete, stream;
      conns := seq(NCONN, _ => Conn(Listen, Peer([], 0), 0, 0, []));
      app, appConn, appReq, isnSeed, dropped := Idle, -1, [], seed, 0;
      born, inc, isn, handed, appInc := 0, seq(NCONN, _ => 0), seq(NCONN, _ => 0), [], 0;
      served, seen := [], [];
    }

    ghost function Look(): View
      reads this
    {
      View(conns, inc, born, isnSeed, dropped, app, appConn, appReq, handed, served)
    }

    ghost predicate SlotOk(i: int)
      reads this
      requires |conns| == NCONN && |inc| == NCONN && |isn| == NCONN && 0 <= i < NCONN
    {
      && (conns[i].Active() ==> inc[i] < born)
      && (conns[i].state == SynRcvd ==> inc[i] !in handed && conns[i].peerSeq == isn[i] + 1)
      && (conns[i].state == Established && Truthful(seen, stream(inc[i]), inc[i]) ==> Prefix(conns[i], stream(inc[i]), isn[i]))
      && (conns[i].state == Established ==> |conns[i].buf| <= CAP)
      && (conns[i].state == Established && inc[i] in handed ==> app != Idle && appInc == inc[i] && appConn == i)
    }

    ghost predicate Valid()
      reads this
    {
      && |conns| == NCONN && |inc| == NCONN && |isn| == NCONN
      && (forall i :: 0 <= i < NCONN ==> SlotOk(i))
      && (forall i, j :: 0 <= i < j < NCONN && conns[i].Active() && conns[j].Active() ==> conns[i].peer != conns[j].peer && inc[i] != inc[j])
      && LogOk(handed, served, seen, born, complete, stream)
      && (app != Idle ==> 0 <= appConn < NCONN && appInc in handed)
    }

    method FindConn(peer: Peer) returns (i: int)
      requires |conns| == NCONN
      ensures -1 <= i < NCONN
      ensures i >= 0 ==> conns[i].Active() && conns[i].peer == peer
      ensures i < 0 ==> forall j :: 0 <= j < NCONN && conns[j].Active() ==> conns[j].peer != peer
    {
      i := 0;
      while i < NCONN
        invariant 0 <= i <= NCONN
        invariant forall j :: 0 <= j < i && conns[j].Active() ==> conns[j].peer != peer
      {
        if conns[i].Active() && conns[i].peer == peer {
          return;
        }
        i := i + 1;
      }
      i := -1;
    }

    method AllocConn() returns (i: int)
      requires |conns| == NCONN
      ensures -1 <= i < NCONN && (i >= 0 ==> !conns[i].Active() && forall j :: 0 <= j < i ==> conns[j].Active())
      ensures i < 0 ==> forall j :: 0 <= j < NCONN ==> conns[j].Active()
    {
      i := 0;
      while i < NCONN
        invariant 0 <= i <= NCONN && forall j :: 0 <= j < i ==> conns[j].Active()
      {
        if !conns[i].Active() {
          return;
        }
        i := i + 1;
      }
      i := -1;
    }

    /** No connection is handed over twice, and those handed stay handed. */
    twostate predicate HandedGrows()
      reads this
    {
      old(handed) <= handed && old(served) <= served && old(seen) <= seen && old(born) <= born
    }

    /** Give slot `i`'s request to the idle worker. */
    method QueueToApp(i: int)
      requires Valid() && 0 <= i < NCONN && conns[i].state == Established && app == Idle && complete(conns[i].buf)
      modifies this
      ensures Valid() && HandedGrows() && isn == old(isn) && seen == old(seen) && inc[i] !in old(handed)
      ensures Look() == Queued(old(Look()), i)
    {
      hide Honest, Truthful, Prefix, LogOk;
      WholeIsNew(i);
      LogServed(handed, served, seen, born, complete, stream, inc[i], conns[i].buf);
      appReq, appConn, app := conns[i].buf, i, QueuedUp;
      handed, served, appInc := handed + [inc[i]], served + [conns[i].buf], inc[i];
      forall j | 0 <= j < NCONN ensures SlotOk(j) {
        assert old(SlotOk(j));
      }
    }

    /** With the worker idle the request of an established connection was not handed over yet, and is the peer's. */
    lemma WholeIsNew(i: int)
      requires Valid() && 0 <= i < NCONN && conns[i].state == Established && app == Idle
      ensures inc[i] < born && inc[i] !in handed
      ensures Truthful(seen, stream(inc[i]), inc[i]) ==> conns[i].buf <= stream(inc[i])
    {
      hide Honest, Truthful, Prefix, LogOk;
      assert SlotOk(i);
      if Truthful(seen, stream(inc[i]), inc[i]) { PrefixIs(conns[i], stream(inc[i]), isn[i]); }
    }

    /** The first slot, if any, with a whole request waiting. */
    method DrainPending()
      requires Valid()
      modifies this
      ensures Valid() && HandedGrows() && isn == old(isn) && seen == old(seen)
      ensures Drained(old(Look()), Look(), complete) && Settled(Look(), complete)
    {
      hide Honest, Truthful, Prefix, LogOk;
      if app != Idle {
        return;
      }
      var i := 0;
      while i < NCONN
        invariant 0 <= i <= NCONN
        invariant forall j :: 0 <= j < i ==> !Waits(Look(), j, complete)
        modifies {}
      {
        if conns[i].state == Established && |conns[i].buf| > 0 && complete(conns[i].buf) {
          break;
        }
        i := i + 1;
      }
      if i < NCONN {
        DrainedInto(Look(), i, complete);
        QueueToApp(i);
      }
    }

    method WorkerStarts()
      requires Valid()
      modifies this`app
      ensures Valid() && Look() == old(Look()).(app := if old(app) == QueuedUp then Working else old(app))
    {
      hide Honest, Truthful, Prefix, LogOk;
      if app == QueuedUp {
        app := Working;
        forall j | 0 <= j < NCONN ensures SlotOk(j) { assert old(SlotOk(j)); }
      }
    }

    method WorkerEnds()
      requires Valid()
      modifies this`app
      ensures Valid() && Look() == old(Look()).(app := if old(app) == Working then App.Done else old(app))
    {
      hide Honest, Truthful, Prefix, LogOk;
      if app == Working {
        app := Done;
        forall j | 0 <= j < NCONN ensures SlotOk(j) { assert old(SlotOk(j)); }
      }
    }

    /** Move slot `i` on within its connection. */
    method Change(i: int, c: Conn)
      requires Valid() && 0 <= i < NCONN && conns[i].Active() && c.peer == conns[i].peer && c.state != SynRcvd
      requires c.state == Established ==> (conns[i].state == Established || conns[i].state == SynRcvd) && |c.buf| <= CAP
      requires c.state == Established && Truthful(seen, stream(inc[i]), inc[i]) ==> Prefix(c, stream(inc[i]), isn[i])
      modifies this`conns
      ensures Valid() && conns == old(conns)[i := c]
    {
      hide Honest, Truthful, Prefix, LogOk;
      conns := conns[i := c];
      forall j | 0 <= j < NCONN ensures SlotOk(j) {
        assert old(SlotOk(j)) && old(SlotOk(i));
      }
    }

    /** No connection with that peer: a SYN may open one. */
    method Open(g: Segment) returns (outs: seq<Out>)
      requires Valid() && forall j :: 0 <= j < NCONN && conns[j].Active() ==> conns[j].peer != g.peer
      modifies this
      ensures Valid() && HandedGrows() && seen == old(seen) && Opened(old(Look()), Look(), g, outs)
      ensures forall j :: 0 <= j < NCONN && inc[j] != old(inc)[j] ==> isn[j] == g.seqNo
    {
      hide Honest, Truthful, Prefix, LogOk;
      if !g.syn {
        return [];
      }
      var j := AllocConn();
      if j < 0 {
        dropped := dropped + 1;
        forall k | 0 <= k < NCONN ensures SlotOk(k) { assert old(SlotOk(k)); }
        return [];
      }
      outs := [Out(g.peer, isnSeed, g.seqNo + 1, true, false, 0)];
      Admit(j, g);
    }

    /** Slot `j` takes up the new connection. */
    method Admit(j: int, g: Segment)
      requires Valid() && 0 <= j < NCONN && !conns[j].Active()
      requires forall k :: 0 <= k < NCONN && conns[k].Active() ==> conns[k].peer != g.peer
      modifies this
      ensures Valid() && HandedGrows() && seen == old(seen) && isn == old(isn)[j := g.seqNo]
      ensures Look() == WithConn(old(Look()), j, Conn(SynRcvd, g.peer, old(isnSeed) + 1, g.seqNo + 1, []))
                          .(inc := old(inc)[j := old(born)], born := old(born) + 1, isnSeed := old(isnSeed) + 0x100)
    {
      hide Honest, Truthful, Prefix, LogOk;
      LogBorn(handed, served, seen, born, complete, stream);
      conns := conns[j := Conn(SynRcvd, g.peer, isnSeed + 1, g.seqNo + 1, [])];
      inc, isn := inc[j := born], isn[j := g.seqNo];
      born := born + 1;
      isnSeed := isnSeed + 0x100;
      forall k | 0 <= k < NCONN ensures SlotOk(k) {
        assert old(SlotOk(k));
        assert old(born) !in handed;
      }
      forall a, b | 0 <= a < b < NCONN && conns[a].Active() && conns[b].Active() ensures conns[a].peer != conns[b].peer && inc[a] != inc[b] {
        assert old(SlotOk(a)) && old(SlotOk(b));
      }
    }

    /** For the record: the segment reached the connection in slot `i`. */
    ghost method Note(i: int, g: Segment)
      requires Valid() && 0 <= i < NCONN && conns[i].state == Established
      modifies this`seen
      ensures Valid() && seen == old(seen) + [Delivery(inc[i], isn[i], g)]
    {
      hide Honest, Truthful, Prefix, LogOk;
      assert SlotOk(i);
      LogSeen(handed, served, seen, born, complete, stream, Delivery(inc[i], isn[i], g));
      seen := seen + [Delivery(inc[i], isn[i], g)];
      forall n ensures Truthful(seen, stream(n), n) ==> Truthful(old(seen), stream(n), n) {
        OneMore(old(seen), stream(n), n, Delivery(inc[i], isn[i], g));
      }
      forall j | 0 <= j < NCONN ensures SlotOk(j) {
        assert old(SlotOk(j));
      }
    }

    /** An established connection: reset, data, or the peer's end. */
    method Receive(i: int, g: Segment) returns (outs: seq<Out>)
      requires Valid() && 0 <= i < NCONN && conns[i].state == Established && conns[i].peer == g.peer
      modifies this
      ensures Valid() && HandedGrows() && isn == old(isn)
      ensures seen == old(seen) + [Delivery(old(inc[i]), old(isn[i]), g)]
      ensures Received(old(Look()), Look(), i, g, outs, complete)
    {
      hide Honest, Truthful, Prefix, LogOk, DataReceived, Queued;
      outs := [];
      ghost var v := Look();
      Note(i, g);
      var c := conns[i];
      if g.rst {
        Change(i, c.(state := Listen));
        return;
      }
      if |g.data| > 0 {
        if g.seqNo == c.peerSeq {
          assert SlotOk(i);
          if Truthful(seen, stream(inc[i]), inc[i]) {
            OneMore(old(seen), stream(inc[i]), inc[i], Delivery(inc[i], isn[i], g));
            AppendKeepsPrefix(c, stream(inc[i]), isn[i], g);
          }
          var n := Min(|g.data|, CAP - |c.buf|);
          c := c.(buf := c.buf + g.data[..n], peerSeq := g.seqNo + |g.data|);
          Change(i, c);
        }
        ghost var w := Look();
        assert c == WithData(v.conns[i], g) && w == WithConn(v, i, c);
        if !complete(c.buf) {
          if |c.buf| >= CAP {
            outs := [Out(c.peer, c.mySeq, c.peerSeq, false, false, TOO_LARGE), Out(c.peer, c.mySeq + TOO_LARGE, c.peerSeq, false, true, 0)];
            Change(i, c.(mySeq := c.mySeq + TOO_LARGE + 1, state := FinWait1));
            RequestRefused(v, w, Look(), i, c, outs, complete);
            return;
          }
          outs := [Out(c.peer, c.mySeq, c.peerSeq, false, false, 0)];
          RequestKept(v, w, i, c, outs, complete);
          return;
        }
        outs := [Out(c.peer, c.mySeq, c.peerSeq, false, false, 0)];
        if app == Idle {
          QueueToApp(i);
          RequestTaken(v, Look(), i, c, outs, complete);
        } else {
          RequestKept(v, w, i, c, outs, complete);
        }
        return;
      }
      if g.fin {
        outs := [Out(c.peer, c.mySeq, g.seqNo + 1, false, true, 0)];
        Change(i, c.(peerSeq := g.seqNo + 1, mySeq := c.mySeq + 1, state := LastAck));
      }
    }

    /** One received segment. */
    method HandleSegment(g: Segment) returns (outs: seq<Out>)
      requires Valid()
      modifies this
      ensures Valid() && HandedGrows() && Handled(old(Look()), Look(), g, outs, complete)
    {
      hide Honest, Truthful, Prefix, LogOk, Received, Opened, Handled;
      outs := [];
      ghost var v := Look();
      var i := FindConn(g.peer);
      if i < 0 {
        outs := Open(g);
        NobodyHandles(v, Look(), g, outs, complete);
        return;
      }
      assert SlotOk(i);
      var c := conns[i];
      match c.state {
        case SynRcvd =>
          if g.rst {
            Change(i, c.(state := Listen));
          } else if g.hasAck && g.ack == c.mySeq {
            FreshPrefix(c, stream(inc[i]), isn[i]);
            Change(i, c.(state := Established, buf := []));
          }
        case Established => outs := Receive(i, g);
        case FinWait1 =>
          if g.hasAck && g.ack == c.mySeq && g.fin {
            outs := [Out(c.peer, c.mySeq, g.seqNo + 1, false, false, 0)];
            Change(i, c.(peerSeq := g.seqNo + 1, state := Listen));
          }
        case LastAck =>
          if g.hasAck && g.ack == c.mySeq {
            Change(i, c.(state := Listen));
          }
        case _ =>
          assert false;
      }
      HandledBy(v, Look(), i, g, outs, complete);
    }

    /** A finished response goes out, or is dropped if its connection is over; then the next request. */
    method Flush(len: nat) returns (outs: seq<Out>)
      requires Valid()
      modifies this
      ensures Valid() && HandedGrows() && Flushed(old(Look()), Look(), len, outs, complete)
    {
      hide Honest, Truthful, Prefix, LogOk, Drained, Settled;
      outs := [];
      if app != Done {
        return;
      }
      var i := appConn;
      if conns[i].state == Established {
        var c := conns[i];
        outs := [Out(c.peer, c.mySeq, c.peerSeq, false, false, len), Out(c.peer, c.mySeq + len, c.peerSeq, false, true, 0)];
        Change(i, c.(mySeq := c.mySeq + len + 1, state := FinWait1));
      }
      GoIdle();
      DrainPending();
    }

    /** The worker is free again; the connection it served is no longer established. */
    method GoIdle()
      requires Valid() && app == Done && conns[appConn].state != Established
      modifies this`app, this`appConn
      ensures Valid() && app == Idle && appConn == -1
    {
      hide Honest, Truthful, Prefix, LogOk;
      ghost var was := appConn;
      app, appConn := Idle, -1;
      forall j | 0 <= j < NCONN ensures SlotOk(j) {
        assert old(SlotOk(j));
      }
    }

    /**
     Any series of events, from any state the server can be in; `log` are the states it goes
     through. No connection's request is handed over twice; every request handed over is whole, and
     as long as the segments that reached its connection were its peer's, it is what the peer began
     with. What each event does is as `Stepped` says.
     */
    method Serve(events: seq<Event>) returns (ghost log: seq<View>)
      requires Valid()
      modifies this
      ensures Valid() && HandedGrows() && |served| == |handed|
      ensures forall i, j :: 0 <= i < j < |handed| ==> handed[i] != handed[j]
      ensures forall k :: 0 <= k < |served| ==> complete(served[k]) && (Truthful(seen, stream(handed[k]), handed[k]) ==> served[k] <= stream(handed[k]))
      ensures Run(log, events, complete) && log[0] == old(Look()) && log[|events|] == Look()
    {
      hide Honest, Truthful, Prefix, Stepped, Handled, Flushed;
      var i := 0;
      log := [Look()];
      while i < |events|
        invariant 0 <= i <= |events| && Valid() && HandedGrows()
        invariant |log| == i + 1 && log[0] == old(Look()) && log[i] == Look()
        invariant Run(log, events[..i], complete)
      {
        ghost var v := Look();
        match events[i] {
          case Arrives(g) => var outs := HandleSegment(g); SegmentStep(v, Look(), g, outs, complete);
          case Starts => WorkerStarts(); WorkerStep(v, Look(), events[i], complete);
          case Ends => WorkerEnds(); WorkerStep(v, Look(), events[i], complete);
          case Flushes(len) => var outs := Flush(len); FlushStep(v, Look(), len, outs, complete);
        }
        RunOn(log, events, i, Look(), complete);
        log := log + [Look()];
        i := i + 1;
      }
      assert events[..i] == events;
    }
  }
}
