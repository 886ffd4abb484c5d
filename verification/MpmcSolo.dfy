/** Calls that run uninterrupted: they behave as a bounded FIFO; and, built from them, a schedule for
    every word size that shows why a thread must not lag by half the counter range. */
module MpmcSolo {
  import opened Arith
  import opened Mpmc
  import opened MpmcInvariant
  import opened MpmcFifo

  /** The claiming half of a call: load, test, decide. */
  function Claim<T>(q: Queue<T>, t: nat): (r: Queue<T>)
    requires Shaped(q)
    ensures Shaped(r)
  {
    Step(Step(Step(q, t, Load(0)), t, Test), t, Decide(0, false))
  }

  /** The other half: access the data, publish or release. */
  function Answer<T>(q: Queue<T>, t: nat): (r: Queue<T>)
    requires Shaped(q)
    ensures Shaped(r)
  {
    Step(Step(q, t, Access), t, Release)
  }

  function Finish<T>(q: Queue<T>, t: nat): (r: Queue<T>)
    requires Shaped(q)
    ensures Shaped(r)
  {
    Step(Answer(q, t), t, Return)
  }

  function PutOne<T>(q: Queue<T>, t: nat, value: T): Queue<T>
    requires Shaped(q)
  {
    Finish(Claim(Step(q, t, CallEnqueue(value)), t), t)
  }

  function TakeOne<T>(q: Queue<T>, t: nat): Queue<T>
    requires Shaped(q)
  {
    Finish(Claim(Step(q, t, CallDequeue), t), t)
  }

  lemma ClaimKeepsInv<T>(q: Queue<T>, k: nat, t: nat)
    requires Inv(q, k)
    ensures Inv(Claim(q, t), k)
  {
    hide And, Pow2, Step;
    StepKeepsInv(q, k, t, Load(0));
    StepKeepsInv(Step(q, t, Load(0)), k, t, Test);
    StepKeepsInv(Step(Step(q, t, Load(0)), t, Test), k, t, Decide(0, false));
  }

  lemma FinishKeepsInv<T>(q: Queue<T>, k: nat, t: nat)
    requires Inv(q, k)
    ensures Inv(Finish(q, t), k)
  {
    hide And, Pow2, Step;
    StepKeepsInv(q, k, t, Access);
    StepKeepsInv(Step(q, t, Access), k, t, Release);
    StepKeepsInv(Step(Step(q, t, Access), t, Release), k, t, Return);
  }

  lemma ClaimToPut<T>(q: Queue<T>, k: nat, t: nat, value: T)
    requires Inv(q, k) && t < |q.threads| && q.threads[t] == EStart(value)
    requires q.enq <= q.mask || !Unreleased(q, q.enq - q.mask - 1)
    ensures var r := Claim(q, t);
            r == Set(q, t, EWrite(value, q.enq, q.enq)).(enq := q.enq + 1, puts := q.puts + [Put(value, t)])
  {
    hide And, Pow2;
    FullExactly(q, k, q.enq);
    EnqueueCell(q, k);
  }

  lemma ClaimToTake<T>(q: Queue<T>, k: nat, t: nat)
    requires Inv(q, k) && t < |q.threads| && q.threads[t] == DStart && !Unpublished(q, q.deq)
    ensures var r := Claim(q, t);
            r == Set(q, t, DRead(q.deq, q.deq)).(deq := q.deq + 1, takers := q.takers + [t])
  {
    hide And, Pow2;
    EmptyExactly(q, k, q.deq);
    DequeueCell(q, k);
  }

  lemma AccessCall<T>(q: Queue<T>, t: nat)
    requires Shaped(q) && t < |q.threads| && (q.threads[t].EWrite? || q.threads[t].DRead?)
    ensures var r, l := Step(q, t, Access), q.threads[t];
            r.threads == q.threads[t := r.threads[t]]
            && (if l.EWrite? then r.threads[t].EPublish?
                else r.threads[t].DRelease? && r.threads[t].item == q.cells[Index(l.pos, q.mask)])
            && r.puts == q.puts && r.takers == q.takers && r.enq == q.enq && r.deq == q.deq && r.mask == q.mask
            && (l.DRead? ==> l.ticket in r.got && r.got[l.ticket] == q.cells[Index(l.pos, q.mask)])
  {
    hide And;
  }

  lemma LastCalls<T>(q: Queue<T>, t: nat)
    requires Shaped(q) && t < |q.threads| && (q.threads[t].EPublish? || q.threads[t].DRelease?)
    ensures var d := Step(q, t, Release);
            var r := Step(d, t, Return);
            && t < |d.threads|
            && d.threads[t] == (if q.threads[t].EPublish? then EDone(true) else DDone(q.threads[t].item))
            && r.threads == q.threads[t := Idle] && r.puts == q.puts && r.takers == q.takers && r.got == q.got
            && r.enq == q.enq && r.deq == q.deq && r.mask == q.mask
  {
    hide And;
  }

  lemma FinishCall<T>(q: Queue<T>, t: nat)
    requires Shaped(q) && t < |q.threads| && (q.threads[t].EWrite? || q.threads[t].DRead?)
    ensures var d, r := Answer(q, t), Finish(q, t);
            && r.threads == q.threads[t := Idle] && r.puts == q.puts && r.takers == q.takers
            && r.enq == q.enq && r.deq == q.deq && r.mask == q.mask && t < |d.threads|
            && (q.threads[t].EWrite? ==> d.threads[t] == EDone(true))
            && (q.threads[t].DRead? ==>
                  var item := q.cells[Index(q.threads[t].pos, q.mask)];
                  q.threads[t].ticket in r.got && r.got[q.threads[t].ticket] == item && d.threads[t] == DDone(item))
  {
    AccessCall(q, t);
    LastCalls(Step(q, t, Access), t);
    hide And, Step;
  }

  lemma CallEffect<T>(q: Queue<T>, k: nat, t: nat, a: Action<T>)
    requires Inv(q, k) && Quiet(q) && t < |q.threads| && q.threads[t] == Idle && (a.CallEnqueue? || a.CallDequeue?)
    ensures var s := Step(q, t, a);
            Inv(s, k) && Quiet(s) && s == Set(q, t, if a.CallEnqueue? then EStart(a.value) else DStart)
  {
    hide And, Pow2;
    StepKeepsInv(q, k, t, a);
  }

  lemma StoredAfterPut<T>(q: Queue<T>, r: Queue<T>, k: nat, t: nat, value: T)
    requires Inv(q, k) && Inv(r, k) && Quiet(q) && Quiet(r)
    requires r.puts == q.puts + [Put(value, t)] && r.takers == q.takers
    ensures Stored(r) == Stored(q) + [Some(value)]
  {
    hide And, Pow2;
    QuietConservation(q, k);
    QuietConservation(r, k);
    hide Stored;
    forall j: nat | j < |Stored(q)| ensures Stored(r)[j] == Stored(q)[j] {}
  }

  lemma StoredAfterTake<T>(q: Queue<T>, r: Queue<T>, k: nat, t: nat)
    requires Inv(q, k) && Inv(r, k) && Quiet(q) && Quiet(r)
    requires r.puts == q.puts && r.takers == q.takers + [t]
    ensures q.deq in r.got && [r.got[q.deq]] + Stored(r) == Stored(q) && r.got[q.deq].Some?
  {
    hide And, Pow2;
    QuietConservation(q, k);
    QuietConservation(r, k);
    hide Stored;
    forall j: nat | j < |Stored(r)| ensures Stored(r)[j] == Stored(q)[j + 1] {}
  }

  /** An uninterrupted `enqueue` on a quiet queue that is not full appends the item and returns true. */
  lemma SequentialEnqueue<T>(q: Queue<T>, k: nat, t: nat, value: T)
    requires Inv(q, k) && Quiet(q) && t < |q.threads| && q.threads[t] == Idle && |Stored(q)| <= q.mask
    ensures var r := PutOne(q, t, value);
            && Inv(r, k) && Quiet(r) && r.threads == q.threads && r.deq == q.deq && r.enq == q.enq + 1
            && r.puts == q.puts + [Put(value, t)] && Stored(r) == Stored(q) + [Some(value)]
    ensures var d := Answer(Claim(Step(q, t, CallEnqueue(value)), t), t);
            t < |d.threads| && d.threads[t] == EDone(true)
  {
    hide And, Pow2, Step, Answer, Finish, Claim;
    CallEffect(q, k, t, CallEnqueue(value));
    var s := Set(q, t, EStart(value));
    ClaimToPut(s, k, t, value);
    ClaimKeepsInv(s, k, t);
    FinishCall(Claim(s, t), t);
    FinishKeepsInv(Claim(s, t), k, t);
    assert PutOne(q, t, value).threads == q.threads;
    StoredAfterPut(q, PutOne(q, t, value), k, t, value);
  }

  /** An uninterrupted `dequeue` on a quiet queue that is not empty takes the oldest item and returns it. */
  lemma SequentialDequeue<T>(q: Queue<T>, k: nat, t: nat)
    requires Inv(q, k) && Quiet(q) && t < |q.threads| && q.threads[t] == Idle && |Stored(q)| > 0
    ensures var r := TakeOne(q, t);
            && Inv(r, k) && Quiet(r) && r.threads == q.threads && r.enq == q.enq && r.deq == q.deq + 1
            && q.deq in r.got && [r.got[q.deq]] + Stored(r) == Stored(q)
    ensures var d := Answer(Claim(Step(q, t, CallDequeue), t), t);
            t < |d.threads| && d.threads[t] == DDone(Stored(q)[0]) && Stored(q)[0].Some?
  {
    hide And, Pow2, Step, Answer, Finish, Claim;
    var s := Set(q, t, DStart);
    CallEffect(q, k, t, CallDequeue);
    ClaimToTake(s, k, t);
    ClaimKeepsInv(s, k, t);
    FinishCall(Claim(s, t), t);
    FinishKeepsInv(Claim(s, t), k, t);
    assert TakeOne(q, t).threads == q.threads;
    StoredAfterTake(q, TakeOne(q, t), k, t);
  }

  /** On a full quiet queue `enqueue` returns false and changes nothing else. */
  lemma SequentialEnqueueFull<T>(q: Queue<T>, k: nat, t: nat, value: T)
    requires Inv(q, k) && Quiet(q) && t < |q.threads| && q.threads[t] == Idle && |Stored(q)| == q.mask + 1
    ensures Claim(Step(q, t, CallEnqueue(value)), t) == Set(q, t, EDone(false))
  {
    CallEffect(q, k, t, CallEnqueue(value));
    hide And, Pow2;
    var s := Set(q, t, EStart(value));
    FullExactly(s, k, s.enq);
    EnqueueCell(s, k);
    assert Claim(s, t).threads == q.threads[t := EDone(false)];
  }

  /** On an empty quiet queue `dequeue` returns false and changes nothing else. */
  lemma SequentialDequeueEmpty<T>(q: Queue<T>, k: nat, t: nat)
    requires Inv(q, k) && Quiet(q) && t < |q.threads| && q.threads[t] == Idle && |Stored(q)| == 0
    ensures Claim(Step(q, t, CallDequeue), t) == Set(q, t, DDone(None))
  {
    CallEffect(q, k, t, CallDequeue);
    hide And, Pow2;
    var s := Set(q, t, DStart);
    EmptyExactly(s, k, s.deq);
    DequeueCell(s, k);
    assert Claim(s, t).threads == q.threads[t := DDone(None)];
  }
}
