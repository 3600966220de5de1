/**
 One slot of the actor table with its real mailbox ring and the real scheduler: the masked
 sections of posting, receiving and selecting.
 */
module ActorSlot {
  import opened Common
  import opened Mailbox
  import opened ReadyList
  import opened Proc

  datatype Fate = Delivered | RecipientGone | MailboxFull

  class Slot {
    const ring: Ring
    var pid: int
    var waiting: bool

    ghost predicate Valid()
      reads this, ring
    {
      ring.Valid()
    }

    ghost function Box(): seq<Msg>
      reads this, ring, ring.q
      requires Valid()
    {
      ring.Contents()
    }

    constructor (filler: Msg)
      ensures Valid() && fresh(ring) && fresh(ring.q) && Box() == [] && pid == -1 && !waiting
    {
      ring := new Ring(filler);
      pid, waiting := -1, false;
    }

    /** Enqueue and wake as one: the message is in the mailbox before the receiver can look. */
    method Post(k: Scheduler, m: Msg) returns (fate: Fate)
      requires Valid() && k.Valid()
      modifies this`waiting, ring`tail, ring.q, k, k.proctab
      ensures Valid() && k.Valid()
      ensures fate == if pid == -1 then RecipientGone else if |old(Box())| == AP_QLEN - 1 then MailboxFull else Delivered
      ensures fate == Delivered ==>
        && Box() == old(Box()) + [m] && !waiting
        && k.View() == if old(waiting) then MakeReady(old(k.View()), pid) else old(k.View())
      ensures fate != Delivered ==> Box() == old(Box()) && waiting == old(waiting) && k.View() == old(k.View())
    {
      if pid == -1 {
        return RecipientGone;
      }
      var ok := ring.Enqueue(m);
      if !ok {
        return MailboxFull;
      }
      if waiting {
        waiting := false;
        k.ProcReady(pid);
      }
      return Delivered;
    }

    /** One look of `ap_recv`: the oldest message, or flag and block with nothing in between. */
    method Receive(k: Scheduler) returns (r: Option<Msg>)
      requires Valid() && k.Valid()
      modifies this`waiting, ring`head, k, k.proctab
      ensures Valid() && (k.Valid() <==> old(Box()) != [] || !Stranding(old(k.View())))
      ensures old(Box()) == [] ==> r == None && Box() == [] && waiting && k.View() == Block(old(k.View()))
      ensures old(Box()) != [] ==>
        r == Some(old(Box())[0]) && Box() == old(Box())[1..] && waiting == old(waiting) && k.View() == old(k.View())
    {
      var e := ring.Empty();
      if e {
        waiting := true;
        k.ProcBlock();
        return None;
      }
      var m := ring.Dequeue();
      return Some(m);
    }

    /** One look of `ap_select`; when nothing matches the lock is let go before blocking. */
    method Choose(k: Scheduler, wants: seq<int>) returns (r: Option<Msg>, held: nat)
      requires Valid() && k.Valid()
      modifies this`waiting, ring`head, ring.q, k, k.proctab
      ensures Valid() && k.Valid()
      ensures var c := old(Box());
              var i := FirstWanted(c, wants, 0);
              if i < |c| then r == Some(c[i]) && Box() == Remove(c, i) && waiting == old(waiting) && k.View() == old(k.View())
              else
                && r == None && Box() == c && waiting && held == Held(old(k.View()))
                && (LockKeeps(old(k.View())); k.View() == Block(UnlockAll(old(k.View()))))
    {
      r := ring.Select(wants);
      held := 0;
      if r == None {
        waiting := true;
        held := k.AiplUnlockAll();
        k.ProcBlock();
      }
    }
  }
}
