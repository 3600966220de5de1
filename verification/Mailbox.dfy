/**
 An actor's mailbox: a ring of 64 entries of which 63 can be in use. As a sequence it is a
 FIFO from which `select` takes the oldest message it wants and leaves the rest in order.
 */
module Mailbox {
  import opened Common

  const AP_QLEN: nat := 64

  /** The method id of a reply to a synchronous call. */
  const AP_REPLY: int := -2

  /**
   `replyTo` is the actor waiting for the answer, -1 for none. `tag` names the call a request or
   reply belongs to; the kernel does not have it, it is there to tell calls apart.
   */
  datatype Msg = Msg(meth: int, a0: int, a1: int, a2: int, a3: int, replyTo: int, tag: nat)

  // ---------- the mailbox as a sequence ----------

  /** Position of the oldest message with a wanted method, at or after `i`; |c| if there is none. */
  function FirstWanted(c: seq<Msg>, wants: seq<int>, i: nat): (r: nat)
    requires i <= |c|
    ensures i <= r <= |c|
    ensures r < |c| ==> c[r].meth in wants
    ensures forall j :: i <= j < r ==> c[j].meth !in wants
    decreases |c| - i
  {
    if i == |c| || c[i].meth in wants then i else FirstWanted(c, wants, i + 1)
  }

  function Remove(c: seq<Msg>, i: nat): seq<Msg>
    requires i < |c|
  {
    c[..i] + c[i + 1..]
  }

  /** Removing one message loses that message and nothing else, and keeps the order of the rest. */
  lemma RemoveKeepsRest(c: seq<Msg>, i: nat)
    requires i < |c|
    ensures multiset(Remove(c, i)) + multiset{c[i]} == multiset(c)
    ensures forall j :: 0 <= j < i ==> Remove(c, i)[j] == c[j]
    ensures forall j :: i < j < |c| ==> Remove(c, i)[j - 1] == c[j]
  {
    var a, b := c[..i], c[i + 1..];
    assert c == a + ([c[i]] + b);
    assert multiset(c) == multiset(a) + (multiset([c[i]]) + multiset(b));
  }

  // ---------- the ring ----------

  /** Slot of the `k`-th message when the oldest is in slot `head`. */
  function SlotOf(head: nat, k: nat): (r: nat)
    requires head < AP_QLEN && k < AP_QLEN
    ensures r < AP_QLEN && r == (head + k) % AP_QLEN
  {
    if head + k < AP_QLEN then head + k else head + k - AP_QLEN
  }

  function Count(head: nat, tail: nat): (n: nat)
    requires head < AP_QLEN && tail < AP_QLEN
    ensures n < AP_QLEN && SlotOf(head, n) == tail
  {
    if head <= tail then tail - head else tail - head + AP_QLEN
  }

  /** The ring's neighbours of a slot. */
  function Following(j: nat): (r: nat)
    ensures r < AP_QLEN
  {
    (j + 1) % AP_QLEN
  }

  function Preceding(j: nat): (r: nat)
    ensures r < AP_QLEN
  {
    (j - 1 + AP_QLEN) % AP_QLEN
  }

  ghost function Unroll(q: seq<Msg>, head: nat, n: nat): (c: seq<Msg>)
    requires |q| == AP_QLEN && head < AP_QLEN && n < AP_QLEN
    ensures |c| == n && forall k :: 0 <= k < n ==> c[k] == q[SlotOf(head, k)]
  {
    seq(n, k requires 0 <= k < n => q[SlotOf(head, k)])
  }

  class Ring {
    const q: array<Msg>
    var head: nat
    var tail: nat

    ghost predicate Valid()
      reads this
    {
      q.Length == AP_QLEN && head < AP_QLEN && tail < AP_QLEN
    }

    ghost function Contents(): (c: seq<Msg>)
      reads this, q
      requires Valid()
      ensures |c| < AP_QLEN
    {
      Unroll(q[..], head, Count(head, tail))
    }

    constructor (filler: Msg)
      ensures Valid() && fresh(q) && Contents() == []
    {
      q := new Msg[AP_QLEN](_ => filler);
      head, tail := 0, 0;
    }

    method Empty() returns (r: bool)
      requires Valid()
      ensures r == (Contents() == [])
    {
      r := head == tail;
      assert r ==> |Contents()| == 0;
    }

    /** Append, unless 63 messages are already waiting. */
    method Enqueue(m: Msg) returns (ok: bool)
      requires Valid()
      modifies this`tail, q
      ensures Valid() && ok == (|old(Contents())| < AP_QLEN - 1)
      ensures Contents() == if ok then old(Contents()) + [m] else old(Contents())
    {
      var nxt := (tail + 1) % AP_QLEN;
      ok := nxt != head;
      if ok {
        ghost var n := Count(head, tail);
        q[tail] := m;
        tail := nxt;
        assert Count(head, tail) == n + 1;
        assert forall k :: 0 <= k < n ==> SlotOf(head, k) != SlotOf(head, n);
      }
    }

    /** Remove the oldest message. */
    method Dequeue() returns (m: Msg)
      requires Valid() && Contents() != []
      modifies this`head
      ensures Valid() && m == old(Contents())[0] && Contents() == old(Contents())[1..]
    {
      ghost var n := Count(head, tail);
      ghost var h := head;
      m := q[head];
      head := (head + 1) % AP_QLEN;
      assert Count(head, tail) == n - 1;
      assert forall k :: 0 <= k < n - 1 ==> SlotOf(head, k) == SlotOf(h, k + 1);
    }

    /** Take the oldest message whose method is wanted, closing the gap it leaves. */
    method Select(wants: seq<int>) returns (r: Option<Msg>)
      requires Valid()
      modifies this`head, q
      ensures Valid()
      ensures var c := old(Contents());
              var i := FirstWanted(c, wants, 0);
              if i == |c| then r == None && Contents() == c else r == Some(c[i]) && Contents() == Remove(c, i)
    {
      ghost var c, n := Contents(), Count(head, tail);
      ghost var k := 0;
      var idx := head;
      while idx != tail && q[idx].meth !in wants
        invariant 0 <= k <= n && idx == SlotOf(head, k)
        invariant FirstWanted(c, wants, k) == FirstWanted(c, wants, 0)
        invariant Contents() == c
        decreases n - k
        modifies {}
      {
        assert c[k] == q[idx];
        idx := (idx + 1) % AP_QLEN;
        k := k + 1;
      }
      if idx == tail {
        return None;
      }
      assert c[k] == q[idx];
      r := Some(q[idx]);
      CloseGap(idx, k);
    }

    method Copy(p: nat, j: nat)
      requires p < q.Length && j < q.Length
      modifies q
      ensures q[..] == old(q[..])[j := old(q[..])[p]]
    {
      q[j] := q[p];
    }

    /** Shift everything before slot `idx` one place towards the tail. */
    method CloseGap(idx: nat, ghost i: nat)
      requires Valid() && i < |Contents()| && idx == SlotOf(head, i)
      modifies this`head, q
      ensures Valid() && Contents() == Remove(old(Contents()), i)
    {
      hide Unroll, Shifted, SlotOf, Following, Preceding, Count, Remove;
      ghost var c, n := Contents(), Count(head, tail);
      var j := idx;
      ghost var k := i;
      ShiftNone(c, i);
      SlotBefore(head, k);
      while j != head
        invariant 0 <= k <= i && j == SlotOf(head, k)
        invariant Unroll(q[..], head, n) == Shifted(c, k, i)
        decreases k
        modifies q
      {
        SlotBefore(head, k);
        var p := Preceding(j);
        ShiftOne(q[..], head, n, c, k, i);
        Copy(p, j);
        j := p;
        k := k - 1;
        SlotBefore(head, k);
      }
      ShiftAll(q[..], head, n, c, i);
      OneLess(head, tail);
      head := Following(head);
    }
  }

  /** Messages `k..i` moved up one place. */
  ghost function Shifted(c: seq<Msg>, k: nat, i: nat): (r: seq<Msg>)
    requires k <= i < |c|
    ensures |r| == |c|
  {
    seq(|c|, x requires 0 <= x < |c| => if k < x <= i then c[x - 1] else c[x])
  }

  /** The slot before the `k`-th message's; the oldest message is in slot `head`. */
  lemma SlotBefore(head: nat, k: nat)
    requires head < AP_QLEN && k < AP_QLEN
    ensures SlotOf(head, k) == head <==> k == 0
    ensures k > 0 ==> Preceding(SlotOf(head, k)) == SlotOf(head, k - 1)
  {
  }

  lemma OneLess(head: nat, tail: nat)
    requires head < AP_QLEN && tail < AP_QLEN && Count(head, tail) > 0
    ensures Count(Following(head), tail) == Count(head, tail) - 1
  {
  }

  lemma ShiftNone(c: seq<Msg>, i: nat)
    requires i < |c|
    ensures Shifted(c, i, i) == c
  {
  }

  lemma ShiftOne(q: seq<Msg>, head: nat, n: nat, c: seq<Msg>, k: nat, i: nat)
    requires |q| == AP_QLEN && head < AP_QLEN && n < AP_QLEN && n == |c| && 0 < k <= i < n
    requires Unroll(q, head, n) == Shifted(c, k, i)
    ensures Unroll(q[SlotOf(head, k) := q[SlotOf(head, k - 1)]], head, n) == Shifted(c, k - 1, i)
  {
    var r := q[SlotOf(head, k) := q[SlotOf(head, k - 1)]];
    assert q[SlotOf(head, k - 1)] == Unroll(q, head, n)[k - 1] == c[k - 1];
    forall x | 0 <= x < n ensures Unroll(r, head, n)[x] == Shifted(c, k - 1, i)[x] {
      assert x != k ==> r[SlotOf(head, x)] == Unroll(q, head, n)[x];
    }
  }

  lemma ShiftAll(q: seq<Msg>, head: nat, n: nat, c: seq<Msg>, i: nat)
    requires |q| == AP_QLEN && head < AP_QLEN && n < AP_QLEN && n == |c| && i < n
    requires Unroll(q, head, n) == Shifted(c, 0, i)
    ensures Unroll(q, Following(head), n - 1) == Remove(c, i)
  {
    var h := Following(head);
    forall x | 0 <= x < n - 1 ensures Unroll(q, h, n - 1)[x] == Remove(c, i)[x] {
      assert SlotOf(h, x) == SlotOf(head, x + 1);
      assert Unroll(q, head, n)[x + 1] == Shifted(c, 0, i)[x + 1];
    }
  }
}
