/** The counter as the object it is: slots and free flags changed in place by the loops of
    CheckWaitingFibers and AddWaitingFiber.  Each method is proved to compute the functions that the
    step machine reaches when nothing interferes (SlotSolo). */
module CounterObject {
  import opened WaitSlots
  import opened SlotSolo
  import opened ThreadLocals

  datatype Verdict = AlreadyDone | MustWait | SlotsFullException

  class BaseCounter {
    const waitingFibers: array<Slot>
    const freeWaitingSlots: array<bool>
    var counter: nat

    ghost predicate Valid()
      reads this, waitingFibers, freeWaitingSlots
    {
      Settled(waitingFibers[..], freeWaitingSlots[..]) && counter < 0x1_0000_0000
    }

    /** TinyCounter has one slot, Counter four. */
    constructor (numWaitingFibers: nat)
      ensures Valid() && counter == 0 && fresh(waitingFibers) && fresh(freeWaitingSlots)
      ensures waitingFibers.Length == numWaitingFibers && forall i: nat | i < numWaitingFibers :: freeWaitingSlots[i]
    {
      counter := 0;
      waitingFibers := new Slot[numWaitingFibers](i => Slot(NO_FIBER, 0, 0, true));
      freeWaitingSlots := new bool[numWaitingFibers];
      new;
      var i := 0;
      while i < numWaitingFibers
        invariant 0 <= i <= numWaitingFibers
        invariant forall j: nat | j < i :: freeWaitingSlots[j]
        invariant counter == 0 && forall j: nat | j < numWaitingFibers :: waitingFibers[j].inUse
      {
        freeWaitingSlots[i] := true;
        i := i + 1;
      }
    }

    method GetValue() returns (v: nat)
      ensures v == counter
    {
      v := counter;
    }

    method Increment(n: nat, tls: TLS) returns (prev: nat)
      requires Valid()
      modifies this, waitingFibers, freeWaitingSlots, tls`readyFibers
      ensures Valid() && prev == old(counter) && counter == (prev + n) % 0x1_0000_0000
      ensures prev + n < 0x1_0000_0000 ==> counter == prev + n
      ensures waitingFibers[..] == ScannedSlots(old(waitingFibers[..]), old(freeWaitingSlots[..]), counter, 0)
      ensures freeWaitingSlots[..] == ScannedFree(old(waitingFibers[..]), old(freeWaitingSlots[..]), counter, 0)
      ensures tls.readyFibers
           == old(tls.readyFibers) + ScanWakes(old(waitingFibers[..]), old(freeWaitingSlots[..]), counter, 0)
    {
      prev := counter;
      counter := Wrapped(prev + n);
      CheckWaitingFibers(Wrapped(prev + n), tls);
    }

    method Decrement(n: nat, tls: TLS) returns (prev: nat)
      requires Valid()
      modifies this, waitingFibers, freeWaitingSlots, tls`readyFibers
      ensures Valid() && prev == old(counter) && counter == (prev - n) % 0x1_0000_0000
      ensures n <= prev ==> counter == prev - n
      ensures waitingFibers[..] == ScannedSlots(old(waitingFibers[..]), old(freeWaitingSlots[..]), counter, 0)
      ensures freeWaitingSlots[..] == ScannedFree(old(waitingFibers[..]), old(freeWaitingSlots[..]), counter, 0)
      ensures tls.readyFibers
           == old(tls.readyFibers) + ScanWakes(old(waitingFibers[..]), old(freeWaitingSlots[..]), counter, 0)
    {
      prev := counter;
      counter := Wrapped(prev - n);
      CheckWaitingFibers(Wrapped(prev - n), tls);
    }

    /** Wakes exactly the registrations waiting for v (SlotSolo.ScanWakesExactly), in slot order. */
    method CheckWaitingFibers(v: nat, tls: TLS)
      requires Valid()
      modifies waitingFibers, freeWaitingSlots, tls`readyFibers
      ensures Valid()
      ensures waitingFibers[..] == ScannedSlots(old(waitingFibers[..]), old(freeWaitingSlots[..]), v, 0)
      ensures freeWaitingSlots[..] == ScannedFree(old(waitingFibers[..]), old(freeWaitingSlots[..]), v, 0)
      ensures tls.readyFibers
           == old(tls.readyFibers) + ScanWakes(old(waitingFibers[..]), old(freeWaitingSlots[..]), v, 0)
    {
      ghost var slots, free := waitingFibers[..], freeWaitingSlots[..];
      var i := 0;
      while i < waitingFibers.Length
        invariant 0 <= i <= waitingFibers.Length
        invariant forall j: nat | j < |slots| ::
                    waitingFibers[j] ==
                       if j < i && Wakes(slots[j], free[j], v) then slots[j].(inUse := true) else slots[j]
        invariant forall j: nat | j < |slots| :: freeWaitingSlots[j] ==
                       (free[j] || (j < i && Wakes(slots[j], free[j], v)))
        invariant tls.readyFibers + ScanWakes(slots, free, v, i) == old(tls.readyFibers) + ScanWakes(slots, free, v, 0)
      {
        if freeWaitingSlots[i] {
          i := i + 1;
          continue;
        }
        var waitingSlot := waitingFibers[i];
        if waitingSlot.inUse {
          i := i + 1;
          continue;
        }
        if waitingSlot.target != v {
          i := i + 1;
          continue;
        }
        waitingFibers[i] := waitingSlot.(inUse := true);
        tls.readyFibers := tls.readyFibers + [(waitingSlot.fiber, waitingSlot.flag)];
        freeWaitingSlots[i] := true;
        i := i + 1;
      }
    }

    /** Already at the target: nothing stays registered.  Otherwise the first free slot is armed. */
    method AddWaitingFiber(req: Request) returns (r: Verdict)
      requires Valid()
      modifies waitingFibers, freeWaitingSlots
      ensures Valid()
      ensures r == if forall i: nat | i < waitingFibers.Length :: !old(freeWaitingSlots[..])[i] then SlotsFullException
                   else if req.target == counter then AlreadyDone else MustWait
      ensures waitingFibers[..] == RegisteredSlots(old(waitingFibers[..]), old(freeWaitingSlots[..]), counter, req)
      ensures freeWaitingSlots[..] == RegisteredFree(old(freeWaitingSlots[..]), counter, req)
    {
      ghost var free := freeWaitingSlots[..];
      var i := 0;
      while i < waitingFibers.Length
        invariant 0 <= i <= waitingFibers.Length
        invariant FirstFree(free, 0) == FirstFree(free, i)
        invariant forall j: nat | j < i :: !free[j]
        invariant waitingFibers[..] == old(waitingFibers[..]) && freeWaitingSlots[..] == free
      {
        if !freeWaitingSlots[i] {
          i := i + 1;
          continue;
        }
        freeWaitingSlots[i] := false;
        waitingFibers[i] := Slot(req.fiber, req.flag, req.target, waitingFibers[i].inUse);
        waitingFibers[i] := waitingFibers[i].(inUse := false);
        var seen := counter;
        if waitingFibers[i].inUse {
          return MustWait;
        }
        if waitingFibers[i].target != seen {
          return MustWait;
        }
        if waitingFibers[i].inUse {
          return MustWait;
        }
        waitingFibers[i] := waitingFibers[i].(inUse := true);
        freeWaitingSlots[i] := true;
        return AlreadyDone;
      }
      return SlotsFullException;
    }
  }
}
