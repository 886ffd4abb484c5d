/** For every word size and capacity: a thread that stalls for half the counter range is misled. */
module MpmcStall {
  import opened Arith
  import opened Mpmc
  import opened MpmcInvariant
  import opened MpmcWrap
  import opened MpmcSolo

  lemma Extend<T>(q: Queue<T>, sched: Schedule<T>, t: nat, a: Action<T>, w: WordSize)
    requires Shaped(q) && NeverLags(q, sched, w) && LagOk(Run(q, sched), t, a, w)
    ensures Run(q, sched + [(t, a)]) == Step(Run(q, sched), t, a)
    ensures NeverLags(q, sched + [(t, a)], w)
  {
    assert (sched + [(t, a)])[..|sched|] == sched;
  }

  lemma ExtendClaim<T>(q: Queue<T>, k: nat, sched: Schedule<T>, t: nat, w: WordSize) returns (longer: Schedule<T>)
    requires Shaped(q) && NeverLags(q, sched, w) && Inv(Run(q, sched), k) && k < w
    requires var r := Run(q, sched); t < |r.threads| && (r.threads[t].EStart? || r.threads[t].DStart?)
    ensures Run(q, longer) == Claim(Run(q, sched), t) && NeverLags(q, longer, w)
  {
    hide And, Run, NeverLags;
    CapacityFitsHalf(k, w);
    var r := Run(q, sched);
    Extend(q, sched, t, Load(0), w);
    Extend(q, sched + [(t, Load(0))], t, Test, w);
    var s := sched + [(t, Load(0))] + [(t, Test)];
    Extend(q, s, t, Decide(0, false), w);
    longer := s + [(t, Decide(0, false))];
  }

  lemma ExtendFinish<T>(q: Queue<T>, sched: Schedule<T>, t: nat, w: WordSize) returns (longer: Schedule<T>)
    requires Shaped(q) && NeverLags(q, sched, w)
    ensures Run(q, longer) == Finish(Run(q, sched), t) && NeverLags(q, longer, w)
  {
    hide And, Run, NeverLags, Step;
    Extend(q, sched, t, Access, w);
    Extend(q, sched + [(t, Access)], t, Release, w);
    var s := sched + [(t, Access)] + [(t, Release)];
    Extend(q, s, t, Return, w);
    longer := s + [(t, Return)];
  }

  /** Thread 0 stands before its first test while thread 1 has put and taken n items. */
  ghost predicate Stalling(q: Queue<int>, k: nat, n: nat) {
    && Inv(q, k) && |q.threads| == 2 && q.threads[0] == ETest(7, 0) && q.threads[1] == Idle && q.enq == q.deq == n
  }

  lemma StallPut(q: Queue<int>, k: nat, n: nat, sched: Schedule<int>, w: WordSize) returns (longer: Schedule<int>)
    requires Shaped(q) && NeverLags(q, sched, w) && Stalling(Run(q, sched), k, n) && k < w
    ensures Run(q, longer) == PutOne(Run(q, sched), 1, 8) && NeverLags(q, longer, w)
  {
    var r := Run(q, sched);
    Extend(q, sched, 1, CallEnqueue(8), w);
    StepKeepsInv(r, k, 1, CallEnqueue(8));
    var s := sched + [(1, CallEnqueue(8))];
    assert Step(r, 1, CallEnqueue(8)).threads[1] == EStart(8);
    hide And, Run, NeverLags, Step, Claim, Finish;
    s := ExtendClaim(q, k, s, 1, w);
    longer := ExtendFinish(q, s, 1, w);
  }

  lemma StallTake(q: Queue<int>, k: nat, sched: Schedule<int>, w: WordSize) returns (longer: Schedule<int>)
    requires Shaped(q) && NeverLags(q, sched, w) && Inv(Run(q, sched), k) && k < w
    requires var r := Run(q, sched); |r.threads| == 2 && r.threads[1] == Idle
    ensures Run(q, longer) == TakeOne(Run(q, sched), 1) && NeverLags(q, longer, w)
  {
    var r := Run(q, sched);
    Extend(q, sched, 1, CallDequeue, w);
    StepKeepsInv(r, k, 1, CallDequeue);
    var s := sched + [(1, CallDequeue)];
    assert Step(r, 1, CallDequeue).threads[1] == DStart;
    hide And, Run, NeverLags, Step, Claim, Finish;
    s := ExtendClaim(q, k, s, 1, w);
    longer := ExtendFinish(q, s, 1, w);
  }

  lemma EmptyRun<T>(q: Queue<T>, w: WordSize)
    requires Shaped(q)
    ensures Run(q, []) == q && NeverLags(q, [], w)
  {
  }

  lemma StallFirstSteps(q: Queue<int>, k: nat)
    requires Inv(q, k) && q.enq == q.deq == 0 && q.threads == [Idle, Idle]
    ensures Stalling(Step(Step(q, 0, CallEnqueue(7)), 0, Load(0)), k, 0)
  {
    hide And, Pow2;
    StepKeepsInv(q, k, 0, CallEnqueue(7));
    StepKeepsInv(Step(q, 0, CallEnqueue(7)), k, 0, Load(0));
  }

  lemma StallStart(k: nat, w: WordSize) returns (sched: Schedule<int>)
    requires 1 <= k < w
    ensures var q := Init<int>(Unbounded, Pow2(k) - 1, 2);
            NeverLags(q, sched, w) && Stalling(Run(q, sched), k, 0)
  {
    var q := Init<int>(Unbounded, Pow2(k) - 1, 2);
    assert q.threads == [Idle, Idle] && q.enq == q.deq == 0;
    hide And, Pow2, Init, Run, NeverLags, Step;
    InitInv<int>(k, 2);
    StallFirstSteps(q, k);
    EmptyRun(q, w);
    Extend(q, [], 0, CallEnqueue(7), w);
    Extend(q, [] + [(0, CallEnqueue(7))], 0, Load(0), w);
    sched := [] + [(0, CallEnqueue(7))] + [(0, Load(0))];
  }

  lemma StallRound(r: Queue<int>, k: nat, n: nat)
    requires Stalling(r, k, n)
    ensures var p := PutOne(r, 1, 8);
            Inv(p, k) && |p.threads| == 2 && p.threads[1] == Idle && Stalling(TakeOne(p, 1), k, n + 1)
  {
    hide And, Pow2, PutOne, TakeOne, Step;
    SequentialEnqueue(r, k, 1, 8);
    SequentialDequeue(PutOne(r, 1, 8), k, 1);
  }

  lemma {:induction false} StallFor(k: nat, n: nat, w: WordSize) returns (sched: Schedule<int>)
    requires 1 <= k < w
    ensures var q := Init<int>(Unbounded, Pow2(k) - 1, 2);
            NeverLags(q, sched, w) && Stalling(Run(q, sched), k, n)
  {
    var q := Init<int>(Unbounded, Pow2(k) - 1, 2);
    hide And, Pow2, Run, NeverLags, Step, Claim, Finish, Init, PutOne, TakeOne;
    if n == 0 {
      sched := StallStart(k, w);
    } else {
      sched := StallFor(k, n - 1, w);
      StallRound(Run(q, sched), k, n - 1);
      sched := StallPut(q, k, n - 1, sched, w);
      sched := StallTake(q, k, sched, w);
    }
  }

  lemma {:induction false} LapsLater(p: nat, k: nat, c: nat)
    ensures Index(p + c * Pow2(k), Pow2(k) - 1) == Index(p, Pow2(k) - 1)
  {
    if c > 0 {
      LapsLater(p, k, c - 1);
      IndexNextLap(p + (c - 1) * Pow2(k), k);
      assert p + (c - 1) * Pow2(k) + Pow2(k) == p + c * Pow2(k);
    }
  }

  /** Half the range ahead reads as half the range behind. */
  lemma HalfReadsNegative(w: WordSize)
    ensures var h, m := Pow2(w - 1), Pow2(w); Bits(w).Difference(Wrap(h, m), Wrap(0, m)) == 0 - h
  {
    var h, m := Pow2(w - 1), Pow2(w);
    assert m == 2 * h;
    hide Pow2, SignedSub;
    ModOfSmall(h, m);
    ModOfSmall(0, m);
    SignedSubOfDifference(h, 0, m);
    DivUnique(h, m, 0, h);
  }

  lemma StalledCell(q: Queue<int>, k: nat, w: WordSize)
    requires 1 <= k < w && Stalling(q, k, Pow2(w - 1))
    ensures q.seqs[Index(0, q.mask)] == Pow2(w - 1)
  {
    Pow2Divides(k, w - 1);
    LapsLater(0, k, Pow2(w - 1 - k));
    hide And, Pow2;
    EnqueueCell(q, k);
  }

  /** The two machines disagree: the wrapped one reports "full", the unbounded one tries again. */
  lemma StalledVerdicts(q: Queue<int>, k: nat, w: WordSize)
    requires 1 <= k < w && Stalling(q, k, Pow2(w - 1))
    ensures Step(Step(Image(q, w), 0, Test), 0, Decide(0, false)).threads[0] == EDone(false)
    ensures Step(Step(q, 0, Test), 0, Decide(0, false)).threads[0] == ETest(7, q.enq)
  {
    hide And, Pow2, Wrap, SignedSub, ToSigned, ImageSeqs;
    StalledCell(q, k, w);
    AccessImage(q, k, 0, Test, w);
    HalfReadsNegative(w);
  }

  /** For every word size w and capacity 2^k below it there is a schedule after which the queue is
      empty and idle except for one stalled producer, whose next two steps report "full" on the w-bit
      buffer; on the unbounded buffer they retry.  Up to then the two buffers agree. */
  lemma StalledThreadMisjudges(k: nat, w: WordSize) returns (sched: Schedule<int>)
    requires 1 <= k < w
    ensures var q, r := Run(Init<int>(Unbounded, Pow2(k) - 1, 2), sched),
                        Run(Init<int>(Bits(w), Pow2(k) - 1, 2), sched);
            && r == Image(q, w) && q.enq == q.deq && q.threads == [ETest(7, 0), Idle]
            && Step(Step(r, 0, Test), 0, Decide(0, false)).threads[0] == EDone(false)
            && Step(Step(q, 0, Test), 0, Decide(0, false)).threads[0] == ETest(7, q.enq)
  {
    sched := StallFor(k, Pow2(w - 1), w);
    InitInv<int>(k, 2);
    InitImage<int>(k, 2, w);
    hide And, Run, Init, Step, Pow2;
    RunImage(Init<int>(Unbounded, Pow2(k) - 1, 2), k, sched, w);
    StalledVerdicts(Run(Init<int>(Unbounded, Pow2(k) - 1, 2), sched), k, w);
  }
}
