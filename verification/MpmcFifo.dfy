/** What the ring buffer promises over whole runs: first in first out, nothing lost or duplicated,
    exact "full" and "empty" verdicts, and lock-free progress. */
module MpmcFifo {
  import opened Arith
  import opened Mpmc
  import opened MpmcInvariant

  /** No thread is between claiming a ticket and publishing or releasing it. */
  ghost predicate Quiet<T>(q: Queue<T>) {
    forall t: nat | t < |q.threads| ::
      !q.threads[t].EWrite? && !q.threads[t].EPublish? && !q.threads[t].DRead? && !q.threads[t].DRelease?
  }

  /** The values put, in order of enqueue tickets. */
  ghost function Values<T>(puts: seq<Put<T>>): (vs: seq<T>)
    ensures |vs| == |puts|
  {
    seq(|puts|, p requires 0 <= p < |puts| => puts[p].value)
  }

  /** The items stored from the dequeue to the enqueue position. */
  ghost function Stored<T>(q: Queue<T>): (items: seq<Option<T>>)
    requires Shaped(q) && q.deq <= q.enq
  {
    seq(q.enq - q.deq, j requires 0 <= j < q.enq - q.deq => q.cells[Index(q.deq + j, q.mask)])
  }

  /** Ticket p has not been released by a consumer. */
  ghost predicate Unreleased<T>(q: Queue<T>, p: nat) {
    p < |q.takers| ==> Reading(q, q.takers[p], p)
  }

  /** Ticket p has not been published by a producer. */
  ghost predicate Unpublished<T>(q: Queue<T>, p: nat) {
    p < |q.puts| ==> Writing(q, q.puts[p].who, p)
  }

  /** FIFO over every interleaving: whatever has been read under dequeue ticket p is the value put
      under enqueue ticket p, no ticket is ahead of the producers, and never more than a buffer's
      worth of tickets is outstanding. */
  lemma TakenInPutOrder<T>(k: nat, threads: nat, sched: Schedule<T>)
    requires k >= 1
    ensures var q := Run(Init<T>(Unbounded, Pow2(k) - 1, threads), sched);
            && |q.takers| <= |q.puts| <= |q.takers| + Pow2(k)
            && (forall p | p in q.got :: p < |q.takers| && q.got[p] == Some(q.puts[p].value))
            && (forall p: nat | p < |q.takers| && p !in q.got :: Reading(q, q.takers[p], p))
  {
    InitInv<T>(k, threads);
    RunKeepsInv(Init<T>(Unbounded, Pow2(k) - 1, threads), k, sched);
    var q := Run(Init<T>(Unbounded, Pow2(k) - 1, threads), sched);
    forall p: nat | p < |q.takers|
      ensures p in q.got ==> p < |q.takers| && q.got[p] == Some(q.puts[p].value)
      ensures p !in q.got ==> Reading(q, q.takers[p], p)
    {
      assert TakeOk(q, p);
    }
  }

  /** What a `dequeue` returns is the value put under the ticket that its own call has claimed. */
  lemma ReturnedWasPut<T>(q: Queue<T>, k: nat, u: nat, a: Action<T>, t: nat)
    requires Inv(q, k) && t < |q.threads| && !q.threads[t].DDone?
    requires var r := Step(q, u, a); t < |r.threads| && r.threads[t].DDone? && r.threads[t].item.Some?
    ensures u == t && q.threads[t].DRelease?
    ensures var p := q.threads[t].ticket;
            && p < |q.takers| && q.takers[p] == t && p < |q.puts|
            && Step(q, u, a).threads[t].item == Some(q.puts[p].value)
            && p in q.got && q.got[p] == Step(q, u, a).threads[t].item
  {
    assert LocalOk(q, t);
    if q.threads[t].DRelease? { assert TakeOk(q, q.threads[t].ticket); }
    hide And;
  }

  /** An `enqueue` returns true if and only if the call has claimed a ticket, and then the item of that ticket
      lies in its cell, published. */
  lemma EnqueueAnswer<T>(q: Queue<T>, k: nat, u: nat, a: Action<T>, t: nat)
    requires Inv(q, k) && t < |q.threads| && !q.threads[t].EDone?
    requires var r := Step(q, u, a); t < |r.threads| && r.threads[t].EDone?
    ensures var r := Step(q, u, a);
            && u == t && r.puts == q.puts
            && (r.threads[t].ok <==> exists p: nat :: p < |q.puts| && q.puts[p].who == t && Writing(q, t, p))
            && (r.threads[t].ok ==>
                  exists p: nat :: p < |q.puts| && q.puts[p].who == t && Writing(q, t, p)
                                   && Holding(r, Index(p, q.mask), p) && !Unpublished(r, p))
  {
    AnswerOfStep(q, u, a, t);
    assert LocalOk(q, t);
    if q.threads[t].EPublish? {
      StepKeepsInv(q, k, u, a);
      JustPublished(q, k, t);
      assert Writing(q, t, q.threads[t].ticket);
    }
    hide And, Pow2, Step, Inv, Holding;
  }

  /** The two steps by which an `enqueue` comes to its answer. */
  lemma AnswerOfStep<T>(q: Queue<T>, u: nat, a: Action<T>, t: nat)
    requires Shaped(q) && t < |q.threads| && !q.threads[t].EDone?
    requires var r := Step(q, u, a); t < |r.threads| && r.threads[t].EDone?
    ensures var r := Step(q, u, a);
            && u == t && r.puts == q.puts
            && (if r.threads[t].ok then a == Release && q.threads[t].EPublish? else q.threads[t].EDecide?)
  {
    hide And;
  }

  lemma JustPublished<T>(q: Queue<T>, k: nat, t: nat)
    requires Inv(q, k) && t < |q.threads| && q.threads[t].EPublish?
    ensures var p, r := q.threads[t].ticket, Step(q, t, Release);
            Holding(r, Index(p, q.mask), p) && !Unpublished(r, p)
  {
    hide And, Pow2;
    assert LocalOk(q, t);
    var p := q.threads[t].ticket;
    assert CellOk(q, Index(p, q.mask));
    if p > 0 { IndexSuccDiffers(p - 1, k); }
  }

  /** A `dequeue` returns an item if and only if the call has claimed a ticket. */
  lemma DequeueAnswer<T>(q: Queue<T>, k: nat, u: nat, a: Action<T>, t: nat)
    requires Inv(q, k) && t < |q.threads| && !q.threads[t].DDone?
    requires var r := Step(q, u, a); t < |r.threads| && r.threads[t].DDone?
    ensures var r := Step(q, u, a);
            && u == t && r.takers == q.takers
            && (r.threads[t].item.Some? <==> exists p: nat :: p < |q.takers| && q.takers[p] == t && Reading(q, t, p))
  {
    assert LocalOk(q, t);
    if q.threads[t].DRelease? {
      assert Reading(q, t, q.threads[t].ticket) && TakeOk(q, q.threads[t].ticket);
    }
    hide And;
  }

  /** How many of the tickets were claimed by thread t. */
  ghost function ClaimedBy(owners: seq<nat>, t: nat): nat {
    if owners == [] then 0
    else ClaimedBy(owners[..|owners| - 1], t) + (if owners[|owners| - 1] == t then 1 else 0)
  }

  ghost function Owners<T>(puts: seq<Put<T>>): (r: seq<nat>)
    ensures |r| == |puts|
  {
    seq(|puts|, p requires 0 <= p < |puts| => puts[p].who)
  }

  /** Calls of thread t that returned true, in `enqueue` or `dequeue`, along a schedule. */
  ghost function Successes<T>(q: Queue<T>, t: nat, enqueuing: bool, sched: Schedule<T>): nat
    requires Shaped(q)
    decreases |sched|
  {
    if sched == [] then 0
    else
      var front := sched[..|sched| - 1];
      Successes(q, t, enqueuing, front) + (if Succeeds(Run(q, front), Run(q, sched), t, enqueuing) then 1 else 0)
  }

  /** Between the two states a call of thread t has come to return true. */
  ghost predicate Succeeds<T>(q: Queue<T>, r: Queue<T>, t: nat, enqueuing: bool) {
    t < |q.threads| && t < |r.threads| && q.threads[t] != r.threads[t] &&
    if enqueuing then r.threads[t] == EDone(true) else r.threads[t].DDone? && r.threads[t].item.Some?
  }

  /** Thread t is between claiming and publishing, or claiming and releasing. */
  ghost predicate InHand<T>(q: Queue<T>, t: nat, enqueuing: bool) {
    t < |q.threads| &&
    if enqueuing then q.threads[t].EWrite? || q.threads[t].EPublish? else q.threads[t].DRead? || q.threads[t].DRelease?
  }

  lemma OneMoreClaim(owners: seq<nat>, u: nat, t: nat)
    ensures ClaimedBy(owners + [u], t) == ClaimedBy(owners, t) + (if u == t then 1 else 0)
  {
    assert (owners + [u])[..|owners|] == owners;
  }

  lemma ClaimsForItself<T>(q: Queue<T>, u: nat, a: Action<T>)
    requires Shaped(q)
    ensures var r := Step(q, u, a);
            && |r.threads| == |q.threads|
            && (r.puts == q.puts || (|r.puts| == |q.puts| + 1 && q.puts <= r.puts && r.puts[|q.puts|].who == u))
            && (r.takers == q.takers || r.takers == q.takers + [u])
  {
    hide And;
  }

  lemma OwnersStep<T>(q: Queue<T>, u: nat, a: Action<T>, t: nat)
    requires Shaped(q)
    ensures var r := Step(q, u, a);
            && |r.threads| == |q.threads|
            && ClaimedBy(Owners(r.puts), t)
               == ClaimedBy(Owners(q.puts), t) + (if u == t && r.puts != q.puts then 1 else 0)
            && ClaimedBy(r.takers, t) == ClaimedBy(q.takers, t) + (if u == t && r.takers != q.takers then 1 else 0)
  {
    ClaimsForItself(q, u, a);
    hide Step, ClaimedBy;
    var r := Step(q, u, a);
    if r.puts != q.puts {
      assert Owners(r.puts) == Owners(q.puts) + [u];
      OneMoreClaim(Owners(q.puts), u, t);
    }
    if r.takers != q.takers {
      OneMoreClaim(q.takers, u, t);
    }
  }

  lemma EnqueueSuccessStep<T>(q: Queue<T>, u: nat, a: Action<T>, t: nat)
    requires Shaped(q)
    ensures var r := Step(q, u, a);
            (if u == t && r.puts != q.puts then 1 else 0) + (if InHand(q, t, true) then 1 else 0)
            == (if InHand(r, t, true) then 1 else 0) + (if Succeeds(q, r, t, true) then 1 else 0)
  {
    hide And;
  }

  lemma DequeueSuccessStep<T>(q: Queue<T>, k: nat, u: nat, a: Action<T>, t: nat)
    requires Inv(q, k)
    ensures var r := Step(q, u, a);
            (if u == t && r.takers != q.takers then 1 else 0) + (if InHand(q, t, false) then 1 else 0)
            == (if InHand(r, t, false) then 1 else 0) + (if Succeeds(q, r, t, false) then 1 else 0)
  {
    if t < |q.threads| {
      assert LocalOk(q, t);
      if q.threads[t].DRelease? { assert TakeOk(q, q.threads[t].ticket); }
    }
    assert Shaped(q);
    hide And, Inv;
  }

  /** Calls and tickets correspond: the tickets a thread has claimed are its calls that returned true, and the
      one it still has in hand. */
  lemma {:induction false} SuccessesAreClaims<T>(q: Queue<T>, k: nat, t: nat, sched: Schedule<T>)
    requires Inv(q, k) && AllIdle(q) && q.puts == [] && q.takers == []
    ensures var r := Run(q, sched);
            && ClaimedBy(Owners(r.puts), t)
               == Successes(q, t, true, sched) + (if InHand(r, t, true) then 1 else 0)
            && ClaimedBy(r.takers, t)
               == Successes(q, t, false, sched) + (if InHand(r, t, false) then 1 else 0)
    decreases |sched|
  {
    if sched != [] {
      var front := sched[..|sched| - 1];
      SuccessesAreClaims(q, k, t, front);
      RunKeepsInv(q, k, front);
      OwnersStep(Run(q, front), sched[|sched| - 1].0, sched[|sched| - 1].1, t);
      EnqueueSuccessStep(Run(q, front), sched[|sched| - 1].0, sched[|sched| - 1].1, t);
      DequeueSuccessStep(Run(q, front), k, sched[|sched| - 1].0, sched[|sched| - 1].1, t);
    }
    hide Step, Inv, And, Pow2, Succeeds;
  }

  /** Histories only grow: a ticket's value, owner and reading never change afterwards. */
  lemma StepExtendsHistory<T>(q: Queue<T>, k: nat, t: nat, a: Action<T>)
    requires Inv(q, k)
    ensures var r := Step(q, t, a);
            q.puts <= r.puts && q.takers <= r.takers && (forall p | p in q.got :: p in r.got && r.got[p] == q.got[p])
  {
    if t < |q.threads| && q.threads[t].DRead? { assert LocalOk(q, t); }
  }

  /** In a quiet state everything put has either been taken, in order, or is stored, in order. */
  lemma QuietConservation<T>(q: Queue<T>, k: nat)
    requires Inv(q, k) && Quiet(q)
    ensures |Stored(q)| == |q.puts| - |q.takers|
    ensures forall p: nat | p < |q.takers| :: p in q.got && q.got[p] == Some(Values(q.puts)[p])
    ensures forall j: nat | j < |Stored(q)| :: Stored(q)[j] == Some(Values(q.puts)[|q.takers| + j])
  {
    forall p: nat | p < |q.takers| ensures p in q.got && q.got[p] == Some(q.puts[p].value) {
      assert TakeOk(q, p);
    }
    forall j: nat | j < |Stored(q)| ensures Stored(q)[j] == Some(q.puts[q.deq + j].value) {
      PublishedCell(q, k, q.deq + j);
    }
  }

  lemma PublishedCell<T>(q: Queue<T>, k: nat, p: nat)
    requires Inv(q, k) && q.deq <= p < q.enq && !Unpublished(q, p)
    ensures Holding(q, Index(p, q.mask), p)
  {
    hide And, Pow2;
    var i := Index(p, q.mask);
    assert CellOk(q, i);
    var s := q.seqs[i];
    if Waiting(q, i, s) {
      IndexInjective(s, p, k);
    } else {
      IndexInjective(s - 1, p, k);
    }
  }

  /** A producer reads a sequence behind its position exactly when its position is current and the
      consumer of the previous lap has not released the cell. */
  lemma FullExactly<T>(q: Queue<T>, k: nat, pos: nat)
    requires Inv(q, k) && pos <= q.enq
    ensures q.seqs[Index(pos, q.mask)] < pos
       <==> pos == q.enq && pos > q.mask && Unreleased(q, pos - q.mask - 1)
  {
    hide And, Pow2;
    if pos < q.enq {
      ClaimedCell(q, k, pos);
    } else {
      EnqueueCell(q, k);
      if pos > q.mask {
        var p := pos - q.mask - 1;
        IndexNextLap(p, k);
        if p < |q.takers| && Reading(q, q.takers[p], p) {
          assert LocalOk(q, q.takers[p]);
        }
      }
    }
  }

  /** A consumer reads a sequence behind its ticket exactly when its position is current and the
      producer of that ticket has not published. */
  lemma EmptyExactly<T>(q: Queue<T>, k: nat, pos: nat)
    requires Inv(q, k) && pos <= q.deq
    ensures q.seqs[Index(pos, q.mask)] < pos + 1 <==> pos == q.deq && Unpublished(q, pos)
  {
    hide And, Pow2;
    if pos < q.deq {
      ClaimedCell(q, k, pos);
    } else {
      DequeueCell(q, k);
      if pos < |q.puts| && Writing(q, q.puts[pos].who, pos) {
        assert LocalOk(q, q.puts[pos].who);
      }
    }
  }

  /** With no operation in flight the verdicts are the plain ones. */
  lemma QuietVerdicts<T>(q: Queue<T>, k: nat)
    requires Inv(q, k) && Quiet(q)
    ensures q.seqs[Index(q.enq, q.mask)] < q.enq <==> |Stored(q)| == q.mask + 1
    ensures q.seqs[Index(q.deq, q.mask)] < q.deq + 1 <==> |Stored(q)| == 0
  {
    FullExactly(q, k, q.enq);
    EmptyExactly(q, k, q.deq);
  }

  /** At prefix j of the schedule thread t stood before loading the sequence sq of its cell. */
  ghost predicate LoadedAt<T>(q: Queue<T>, sched: Schedule<T>, t: nat, pos: nat, sq: nat, enqueuing: bool, j: nat)
    requires Shaped(q)
  {
    j < |sched| && AboutToLoad(Run(q, sched[..j]), t, pos, sq, enqueuing)
  }

  ghost predicate AboutToLoad<T>(q: Queue<T>, t: nat, pos: nat, sq: nat, enqueuing: bool)
    requires Shaped(q)
  {
    t < |q.threads| && q.seqs[Index(pos, q.mask)] == sq &&
    if enqueuing then q.threads[t].ETest? && q.threads[t].pos == pos
    else q.threads[t].DTest? && q.threads[t].pos == pos
  }

  lemma DecisionComesFromTest<T>(q: Queue<T>, u: nat, a: Action<T>, t: nat)
    requires Shaped(q) && t < |Step(q, u, a).threads|
    ensures var l := Step(q, u, a).threads[t];
            t < |q.threads| && (l.EDecide? || l.DDecide? ==>
              q.threads[t] == l || AboutToLoad(q, t, l.pos, l.sq, l.EDecide?))
  {
    hide And, Width.Norm, Width.Difference;
  }

  ghost predicate AllIdle<T>(q: Queue<T>) {
    forall u: nat | u < |q.threads| :: q.threads[u] == Idle
  }

  /** From prefix j + 1 to the end of the schedule thread t does not move: prefix j was its last step. */
  ghost predicate StillSince<T>(q: Queue<T>, sched: Schedule<T>, t: nat, j: nat)
    requires Shaped(q)
  {
    forall i: nat | j < i <= |sched| ::
      t < |Run(q, sched[..i]).threads| && t < |Run(q, sched).threads|
      && Run(q, sched[..i]).threads[t] == Run(q, sched).threads[t]
  }

  lemma {:induction false} DecisionWasLoaded<T>(q: Queue<T>, sched: Schedule<T>, t: nat)
    requires Shaped(q) && AllIdle(q)
    requires t < |Run(q, sched).threads|
    requires Run(q, sched).threads[t].EDecide? || Run(q, sched).threads[t].DDecide?
    ensures var l := Run(q, sched).threads[t];
            exists j: nat :: LoadedAt(q, sched, t, l.pos, l.sq, l.EDecide?, j) && StillSince(q, sched, t, j)
    decreases |sched|
  {
    hide Step;
    if sched != [] {
      var front := sched[..|sched| - 1];
      var (u, a) := sched[|sched| - 1];
      var l := Run(q, sched).threads[t];
      DecisionComesFromTest(Run(q, front), u, a, t);
      assert sched[..|sched|] == sched;
      var j: nat := |front|;
      if Run(q, front).threads[t] == l {
        DecisionWasLoaded(q, front, t);
        j :| LoadedAt(q, front, t, l.pos, l.sq, l.EDecide?, j) && StillSince(q, front, t, j);
        assert front[..j] == sched[..j];
      }
      forall i: nat | j < i <= |sched|
        ensures t < |Run(q, sched[..i]).threads| && Run(q, sched[..i]).threads[t] == l
      {
        if i < |sched| { assert front[..i] == sched[..i]; }
      }
      assert LoadedAt(q, sched, t, l.pos, l.sq, l.EDecide?, j) && StillSince(q, sched, t, j);
    }
  }

  /** Thread t is at its test of the current enqueue position and the lap before is unreleased. */
  ghost predicate SawFull<T>(q: Queue<T>, t: nat) {
    t < |q.threads| && q.threads[t].ETest? && q.threads[t].pos == q.enq > q.mask
    && Unreleased(q, q.enq - q.mask - 1)
  }

  /** Thread t is at its test of the current dequeue position and that ticket is unpublished. */
  ghost predicate SawEmpty<T>(q: Queue<T>, t: nat) {
    t < |q.threads| && q.threads[t].DTest? && q.threads[t].pos == q.deq && Unpublished(q, q.deq)
  }

  lemma FalseMeansBehind<T>(q: Queue<T>, k: nat, t: nat, lag: nat, spurious: bool)
    requires Inv(q, k) && t < |q.threads|
    ensures var l, m := q.threads[t], Step(q, t, Decide(lag, spurious)).threads[t];
            (l.EDecide? && m == EDone(false) ==> l.sq < l.pos) && (l.DDecide? && m == DDone(None) ==> l.sq < l.pos + 1)
  {
  }

  lemma LoadSawVerdict<T>(q: Queue<T>, k: nat, t: nat, pos: nat, sq: nat, enqueuing: bool)
    requires Inv(q, k) && AboutToLoad(q, t, pos, sq, enqueuing)
    ensures enqueuing && sq < pos ==> SawFull(q, t)
    ensures !enqueuing && sq < pos + 1 ==> SawEmpty(q, t)
  {
    assert LocalOk(q, t);
    if enqueuing { FullExactly(q, k, pos); } else { EmptyExactly(q, k, pos); }
  }

  /** An `enqueue` about to return false passed, at the very load that this verdict rests on (its last step
      so far), a moment at which its position was the enqueue position and the ticket one lap earlier
      was unreleased. */
  lemma FalseEnqueueWasFull<T>(q: Queue<T>, k: nat, sched: Schedule<T>, t: nat, lag: nat, spurious: bool)
    requires Inv(q, k) && AllIdle(q)
    requires var r := Run(q, sched);
             t < |r.threads| && r.threads[t].EDecide? && Step(r, t, Decide(lag, spurious)).threads[t] == EDone(false)
    ensures exists j: nat | j < |sched| :: SawFull(Run(q, sched[..j]), t) && StillSince(q, sched, t, j)
  {
    hide And, Pow2, Step;
    RunKeepsInv(q, k, sched);
    FalseMeansBehind(Run(q, sched), k, t, lag, spurious);
    var l := Run(q, sched).threads[t];
    DecisionWasLoaded(q, sched, t);
    var j: nat :| LoadedAt(q, sched, t, l.pos, l.sq, true, j) && StillSince(q, sched, t, j);
    RunKeepsInv(q, k, sched[..j]);
    LoadSawVerdict(Run(q, sched[..j]), k, t, l.pos, l.sq, true);
  }

  /** A `dequeue` about to return false found, at the very load that this verdict rests on, the head ticket
      unpublished. */
  lemma FalseDequeueWasEmpty<T>(q: Queue<T>, k: nat, sched: Schedule<T>, t: nat, lag: nat, spurious: bool)
    requires Inv(q, k) && AllIdle(q)
    requires var r := Run(q, sched);
             t < |r.threads| && r.threads[t].DDecide? && Step(r, t, Decide(lag, spurious)).threads[t] == DDone(None)
    ensures exists j: nat | j < |sched| :: SawEmpty(Run(q, sched[..j]), t) && StillSince(q, sched, t, j)
  {
    hide And, Pow2, Step;
    RunKeepsInv(q, k, sched);
    FalseMeansBehind(Run(q, sched), k, t, lag, spurious);
    var l := Run(q, sched).threads[t];
    DecisionWasLoaded(q, sched, t);
    var j: nat :| LoadedAt(q, sched, t, l.pos, l.sq, false, j) && StillSince(q, sched, t, j);
    RunKeepsInv(q, k, sched[..j]);
    LoadSawVerdict(Run(q, sched[..j]), k, t, l.pos, l.sq, false);
  }

  /** A relaxed load may see the position counter as it is or as it was at any earlier time, and nothing else. */
  lemma LoadsAnyEarlier<T>(q: Queue<T>, k: nat, t: nat, pos: nat)
    requires Inv(q, k) && t < |q.threads|
    ensures q.threads[t].EStart? ==>
              (pos <= q.enq <==>
                exists lag: nat :: Step(q, t, Load(lag)).threads[t] == ETest(q.threads[t].value, pos))
    ensures q.threads[t].DStart? ==>
              (pos <= q.deq <==> exists lag: nat :: Step(q, t, Load(lag)).threads[t] == DTest(pos))
  {
    if q.threads[t].EStart? && pos <= q.enq {
      assert Step(q, t, Load(q.enq - pos)).threads[t] == ETest(q.threads[t].value, pos);
    }
    if q.threads[t].DStart? && pos <= q.deq {
      assert Step(q, t, Load(q.deq - pos)).threads[t] == DTest(pos);
    }
    hide And;
  }

  /** A compare-exchange that fails for no reason sends its call round the loop again; nobody claims. */
  lemma SpuriousFailure<T>(q: Queue<T>, k: nat, t: nat, lag: nat)
    requires Inv(q, k) && t < |q.threads|
    ensures var r, l := Step(q, t, Decide(lag, true)), q.threads[t];
            && r.puts == q.puts && r.takers == q.takers && r.enq == q.enq && r.deq == q.deq
            && (l.EDecide? && l.sq == l.pos && lag <= q.enq ==> r.threads[t] == ETest(l.value, q.enq - lag))
            && (l.DDecide? && l.sq == l.pos + 1 && lag <= q.deq ==> r.threads[t] == DTest(q.deq - lag))
  {
    hide And;
  }

  /** The position a thread works on, while it is still trying to claim. */
  function Trying<T>(l: Local<T>): Option<nat> {
    match l
    case ETest(_, pos) => Some(pos)
    case EDecide(_, pos, _) => Some(pos)
    case DTest(pos) => Some(pos)
    case DDecide(pos, _) => Some(pos)
    case _ => None
  }

  /** Another trip round the retry loop, with an up-to-date reload and no spurious failure, means
      another thread claimed a ticket: the position moves strictly forward. */
  lemma RetryAdvances<T>(q: Queue<T>, k: nat, t: nat)
    requires Inv(q, k) && t < |q.threads| && (q.threads[t].EDecide? || q.threads[t].DDecide?)
    ensures var l := Step(q, t, Decide(0, false)).threads[t];
            l.ETest? || l.DTest? ==> l.pos > q.threads[t].pos && l.pos == (if l.ETest? then q.enq else q.deq)
  {
    assert LocalOk(q, t);
    if q.threads[t].EDecide? { EnqueueCell(q, k); } else { DequeueCell(q, k); }
  }

  /** Trips back to the top of a retry loop that thread t makes along a schedule. */
  ghost function Retries<T>(q: Queue<T>, t: nat, sched: Schedule<T>): nat
    requires Shaped(q)
    decreases |sched|
  {
    if sched == [] then 0
    else
      var front := sched[..|sched| - 1];
      var (u, a) := sched[|sched| - 1];
      Retries(q, t, front) + (if u == t && LoopsBack(Run(q, front), t, a) then 1 else 0)
  }

  ghost predicate LoopsBack<T>(q: Queue<T>, t: nat, a: Action<T>)
    requires Shaped(q)
  {
    t < |q.threads| && a.Decide?
    && ((q.threads[t].EDecide? && Step(q, t, a).threads[t].ETest?)
        || (q.threads[t].DDecide? && Step(q, t, a).threads[t].DTest?))
  }

  /** What one step does to the position thread t is trying to claim, within one call. */
  lemma TryingStep<T>(q: Queue<T>, k: nat, t: nat, u: nat, a: Action<T>)
    requires Inv(q, k) && t < |q.threads|
    requires u == t ==> !a.Load? && (a.Decide? ==> a == Decide(0, false))
    ensures var r := Step(q, u, a);
            && |r.threads| == |q.threads| && q.enq <= r.enq && q.deq <= r.deq
            && (Trying(r.threads[t]).Some? ==>
              Trying(q.threads[t]).Some? && (Enqueuing(r.threads[t]) <==> Enqueuing(q.threads[t])))
            && (Trying(r.threads[t]).Some? ==>
              Trying(q.threads[t]).value + (if u == t && LoopsBack(q, t, a) then 1 else 0)
                <= Trying(r.threads[t]).value)
            && (Trying(r.threads[t]).None? ==> !(u == t && LoopsBack(q, t, a)))
  {
    hide And, Pow2;
    if u == t && a.Decide? && (q.threads[t].EDecide? || q.threads[t].DDecide?) { RetryAdvances(q, k, t); }
  }

  ghost predicate Enqueuing<T>(l: Local<T>) {
    l.ETest? || l.EDecide?
  }

  /** Lock freedom: the retries of one call are bounded by the tickets claimed since it loaded its
      position.  (A schedule without further loads by t is the rest of one call.) */
  lemma {:induction false} RetriesBounded<T>(q: Queue<T>, k: nat, t: nat, sched: Schedule<T>)
    requires Inv(q, k) && t < |q.threads| && Trying(q.threads[t]).Some?
    requires forall i: nat | i < |sched| && sched[i].0 == t ::
               !sched[i].1.Load? && (sched[i].1.Decide? ==> sched[i].1 == Decide(0, false))
    ensures var r, start := Run(q, sched), Trying(q.threads[t]).value;
            && |r.threads| == |q.threads| && q.enq <= r.enq && q.deq <= r.deq
            && start + Retries(q, t, sched) <= (if Enqueuing(q.threads[t]) then r.enq else r.deq)
            && (Trying(r.threads[t]).Some? ==> (Enqueuing(r.threads[t]) <==> Enqueuing(q.threads[t])))
            && (Trying(r.threads[t]).Some? ==> start + Retries(q, t, sched) <= Trying(r.threads[t]).value)
    decreases |sched|
  {
    hide And, Pow2, Step;
    RunKeepsInv(q, k, sched);
    if sched == [] {
      assert LocalOk(q, t);
    } else {
      var front := sched[..|sched| - 1];
      var (u, a) := sched[|sched| - 1];
      RetriesBounded(q, k, t, front);
      RunKeepsInv(q, k, front);
      TryingStep(Run(q, front), k, t, u, a);
      assert LocalOk(Run(q, sched), t);
    }
  }

  /** A producer running alone decides in one trip: it claims, or the previous lap is unreleased. */
  lemma SoloEnqueue<T>(q: Queue<T>, k: nat, t: nat, value: T)
    requires Inv(q, k) && t < |q.threads| && q.threads[t] == EStart(value)
    ensures var r := Step(Step(Step(q, t, Load(0)), t, Test), t, Decide(0, false));
            r.threads[t] == (if q.enq > q.mask && Unreleased(q, q.enq - q.mask - 1) then EDone(false)
                             else EWrite(value, q.enq, |q.puts|))
  {
    hide And, Pow2;
    FullExactly(q, k, q.enq);
    EnqueueCell(q, k);
  }

  /** A consumer running alone decides in one trip: it claims, or the head is unpublished. */
  lemma SoloDequeue<T>(q: Queue<T>, k: nat, t: nat)
    requires Inv(q, k) && t < |q.threads| && q.threads[t] == DStart
    ensures var r := Step(Step(Step(q, t, Load(0)), t, Test), t, Decide(0, false));
            r.threads[t] == (if Unpublished(q, q.deq) then DDone(None) else DRead(q.deq, |q.takers|))
  {
    hide And, Pow2;
    EmptyExactly(q, k, q.deq);
    DequeueCell(q, k);
  }
}
