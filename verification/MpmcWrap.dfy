/** Wrap-around: the ring buffer with w-bit counters simulates the one with unbounded tickets. */
module MpmcWrap {
  import opened Arith
  import opened Mpmc
  import opened MpmcInvariant
  import opened MpmcFifo

  function ImageLocal<T>(l: Local<T>, m: nat): Local<T>
    requires m > 0
  {
    match l
    case ETest(v, pos) => ETest(v, Wrap(pos, m))
    case EDecide(v, pos, sq) => EDecide(v, Wrap(pos, m), Wrap(sq, m))
    case EWrite(v, pos, p) => EWrite(v, Wrap(pos, m), p)
    case EPublish(v, pos, p) => EPublish(v, Wrap(pos, m), p)
    case DTest(pos) => DTest(Wrap(pos, m))
    case DDecide(pos, sq) => DDecide(Wrap(pos, m), Wrap(sq, m))
    case DRead(pos, p) => DRead(Wrap(pos, m), p)
    case DRelease(pos, p, item) => DRelease(Wrap(pos, m), p, item)
    case _ => l
  }

  function ImageSeqs(seqs: seq<nat>, m: nat): (r: seq<nat>)
    requires m > 0
    ensures |r| == |seqs| && forall i: nat | i < |seqs| :: r[i] == Wrap(seqs[i], m)
  {
    seq(|seqs|, i requires 0 <= i < |seqs| => Wrap(seqs[i], m))
  }

  function ImageThreads<T>(threads: seq<Local<T>>, m: nat): (r: seq<Local<T>>)
    requires m > 0
    ensures |r| == |threads| && forall t: nat | t < |threads| :: r[t] == ImageLocal(threads[t], m)
  {
    seq(|threads|, t requires 0 <= t < |threads| => ImageLocal(threads[t], m))
  }

  /** Every counter, and every copy of a counter, reduced to w bits; items and histories as they are. */
  function Image<T>(q: Queue<T>, w: WordSize): (r: Queue<T>)
    requires Shaped(q)
    ensures Shaped(r) && |r.threads| == |q.threads|
  {
    var m := Pow2(w);
    Queue(Bits(w), q.mask, ImageSeqs(q.seqs, m), q.cells, Wrap(q.enq, m), Wrap(q.deq, m), ImageThreads(q.threads, m),
          q.puts, q.takers, q.got)
  }

  /** A thread about to decide lags behind its counter by less than half the range, less the capacity. */
  ghost predicate LagOk<T>(q: Queue<T>, t: nat, a: Action<T>, w: WordSize) {
    t < |q.threads| && a.Decide? ==>
      && (q.threads[t].EDecide? ==> q.enq - q.threads[t].pos + q.mask + 1 <= Pow2(w - 1))
      && (q.threads[t].DDecide? ==> q.deq - q.threads[t].pos + q.mask + 1 <= Pow2(w - 1))
  }

  lemma ShiftWrapped(x: int, d: int, m: nat)
    requires m > 0
    ensures Wrap(Wrap(x, m) + d, m) == Wrap(x + d, m)
  {
    assert x == (x / m) * m + Wrap(x, m);
    AddMultiple(Wrap(x, m) + d, m, x / m);
  }

  /** Within the signed range the wrapped difference is the true one. */
  lemma DifferenceKept(a: nat, b: nat, w: WordSize)
    requires 0 - Pow2(w - 1) <= a - b < Pow2(w - 1)
    ensures Bits(w).Difference(Wrap(a, Pow2(w)), Wrap(b, Pow2(w))) == a - b
  {
    var m := Pow2(w);
    assert m == 2 * Pow2(w - 1);
    hide Pow2, Wrap, SignedSub;
    SignedSubOfDifference(a, b, m);
    SignKeptIffInRange(a - b, m);
    ModOfSmall(a, m);
    ModOfSmall(b, m);
  }

  lemma ModOfSmall(x: nat, m: nat)
    requires m > 0
    ensures Wrap(Wrap(x, m), m) == Wrap(x, m)
  {
    DivUnique(Wrap(x, m), m, 0, Wrap(x, m));
  }

  lemma ImageOfUpdate<T>(q: Queue<T>, w: WordSize, i: nat, v: nat)
    requires Shaped(q) && i <= q.mask
    ensures Image(q.(seqs := q.seqs[i := v]), w) == Image(q, w).(seqs := Image(q, w).seqs[i := Wrap(v, Pow2(w))])
  {
    assert Image(q.(seqs := q.seqs[i := v]), w).seqs == Image(q, w).seqs[i := Wrap(v, Pow2(w))];
  }

  lemma ImageOfSet<T>(q: Queue<T>, w: WordSize, t: nat, l: Local<T>)
    requires Shaped(q) && t < |q.threads|
    ensures Image(Set(q, t, l), w) == Set(Image(q, w), t, ImageLocal(l, Pow2(w)))
  {
    assert Image(Set(q, t, l), w).threads == Image(q, w).threads[t := ImageLocal(l, Pow2(w))];
  }

  /** What the cell holds at any time is less than one lap ahead of the counters. */
  lemma SequenceBound<T>(q: Queue<T>, k: nat, i: nat)
    requires Inv(q, k) && i <= q.mask
    ensures q.seqs[i] <= q.deq + q.mask + 1 && q.seqs[i] <= q.enq + q.mask
  {
    assert CellOk(q, i);
  }

  /** Positions less than one wrap apart agree wrapped exactly when they agree. */
  lemma SamePosition(counter: nat, pos: nat, w: WordSize)
    requires pos <= counter < pos + Pow2(w)
    ensures Wrap(counter, Pow2(w)) == Wrap(pos, Pow2(w)) <==> counter == pos
  {
    var m := Pow2(w);
    hide Pow2;
    if Wrap(counter, m) == Wrap(pos, m) { ModInjective(counter, pos, m); }
  }

  lemma NormShift(x: int, d: int, w: WordSize)
    requires x + d >= 0
    ensures Bits(w).Norm(Wrap(x, Pow2(w)) + d) == Wrap(x + d, Pow2(w)) && Unbounded.Norm(x + d) == x + d
  {
    ShiftWrapped(x, d, Pow2(w));
  }

  /** A thread about to decide lags behind its counter by less than one full wrap, less the capacity. */
  ghost predicate LagsLessThanAWrap<T>(q: Queue<T>, t: nat, a: Action<T>, w: WordSize) {
    t < |q.threads| && a.Decide? ==>
      && (q.threads[t].EDecide? ==> q.enq - q.threads[t].pos + q.mask + 1 <= Pow2(w))
      && (q.threads[t].DDecide? ==> q.deq - q.threads[t].pos + q.mask + 1 <= Pow2(w))
  }

  /** The difference a thread is about to branch on fits the signed range. */
  ghost predicate BranchInRange<T>(q: Queue<T>, t: nat, a: Action<T>, w: WordSize) {
    t < |q.threads| && a.Decide? ==>
      && (q.threads[t].EDecide? && a.lag <= q.enq ==> q.threads[t].sq - q.threads[t].pos < Pow2(w - 1))
      && (q.threads[t].DDecide? && a.lag <= q.deq ==> q.threads[t].sq - (q.threads[t].pos + 1) < Pow2(w - 1))
  }

  lemma EnqDecideFacts<T>(q: Queue<T>, k: nat, t: nat, w: WordSize)
    requires Inv(q, k) && k < w && t < |q.threads| && q.threads[t].EDecide?
    requires q.enq - q.threads[t].pos + q.mask + 1 <= Pow2(w)
    ensures var l, m := q.threads[t], Pow2(w);
            && 0 - Pow2(w - 1) <= l.sq - l.pos < m
            && Unbounded.Difference(l.sq, l.pos) == l.sq - l.pos
            && (l.sq - l.pos < Pow2(w - 1) ==> Bits(w).Difference(Wrap(l.sq, m), Wrap(l.pos, m)) == l.sq - l.pos)
            && (l.sq - l.pos >= Pow2(w - 1) ==> Bits(w).Difference(Wrap(l.sq, m), Wrap(l.pos, m)) < 0)
            && (Wrap(q.enq, m) == Wrap(l.pos, m) <==> q.enq == l.pos)
  {
    hide And, Pow2, Wrap, SignedSub, ToSigned;
    var EDecide(v, pos, sq) := q.threads[t];
    assert LocalOk(q, t);
    SequenceBound(q, k, Index(pos, q.mask));
    CapacityFitsHalf(k, w);
    DifferenceRange(sq, pos, w);
    SamePosition(q.enq, pos, w);
  }

  lemma DeqDecideFacts<T>(q: Queue<T>, k: nat, t: nat, w: WordSize)
    requires Inv(q, k) && k < w && t < |q.threads| && q.threads[t].DDecide?
    requires q.deq - q.threads[t].pos + q.mask + 1 <= Pow2(w)
    ensures var l, m := q.threads[t], Pow2(w);
            && 0 - Pow2(w - 1) <= l.sq - (l.pos + 1) < m
            && Unbounded.Difference(l.sq, l.pos + 1) == l.sq - (l.pos + 1)
            && (l.sq - (l.pos + 1) < Pow2(w - 1) ==>
                  Bits(w).Difference(Wrap(l.sq, m), Wrap(l.pos + 1, m)) == l.sq - (l.pos + 1))
            && (l.sq - (l.pos + 1) >= Pow2(w - 1) ==> Bits(w).Difference(Wrap(l.sq, m), Wrap(l.pos + 1, m)) < 0)
            && (Wrap(q.deq, m) == Wrap(l.pos, m) <==> q.deq == l.pos)
  {
    hide And, Pow2, Wrap, SignedSub, ToSigned;
    var DDecide(pos, sq) := q.threads[t];
    assert LocalOk(q, t);
    SequenceBound(q, k, Index(pos, q.mask));
    CapacityFitsHalf(k, w);
    DifferenceRange(sq, pos + 1, w);
    SamePosition(q.deq, pos, w);
  }

  lemma {:induction false} CapacityFitsHalf(k: nat, w: WordSize)
    requires k < w
    ensures Pow2(k) <= Pow2(w - 1)
    decreases w
  {
    if k < w - 1 { CapacityFitsHalf(k, w - 1); }
  }

  /** A difference of less than one wrap is read right below the half, and negative from there on. */
  lemma DifferenceRange(a: nat, b: nat, w: WordSize)
    requires 0 - Pow2(w - 1) <= a - b < Pow2(w)
    ensures var dif := Bits(w).Difference(Wrap(a, Pow2(w)), Wrap(b, Pow2(w)));
            if a - b < Pow2(w - 1) then dif == a - b else dif < 0
  {
    var m := Pow2(w);
    assert m == 2 * Pow2(w - 1);
    hide Pow2, SignedSub;
    SignedSubOfDifference(a, b, m);
    ModOfSmall(a, m);
    ModOfSmall(b, m);
    SignKeptIffInRange(a - b, m);
    if a - b >= Pow2(w - 1) { DivUnique(a - b, m, 0, a - b); }
  }

  lemma EnqDecideImage<T>(q: Queue<T>, k: nat, t: nat, lag: nat, spurious: bool, w: WordSize)
    requires Inv(q, k) && k < w && t < |q.threads| && q.threads[t].EDecide? && lag <= q.enq
    requires q.enq - q.threads[t].pos + q.mask + 1 <= Pow2(w)
    ensures var l, m := q.threads[t], Pow2(w);
            EnqDecide(Image(q, w), t, l.value, Wrap(l.pos, m), Wrap(l.sq, m), lag, spurious)
            == Image(EnqDecide(q, t, l.value, l.pos, l.sq, lag, spurious), w)
            <==> l.sq - l.pos < Pow2(w - 1)
  {
    hide And, Pow2, Wrap, SignedSub, ToSigned, ImageSeqs, ImageThreads, Width.Difference;
    var EDecide(v, pos, sq) := q.threads[t];
    EnqDecideFacts(q, k, t, w);
    NormShift(q.enq, 0 - lag, w);
    NormShift(pos, 1, w);
    ImageOfSet(q, w, t, EDone(false));
    ImageOfSet(q, w, t, ETest(v, q.enq - lag));
    ImageOfSet(q, w, t, EWrite(v, pos, |q.puts|));
    if sq - pos >= Pow2(w - 1) {
      assert EnqDecide(Image(q, w), t, v, Wrap(pos, Pow2(w)), Wrap(sq, Pow2(w)), lag, spurious).threads[t]
             == EDone(false);
      assert Image(EnqDecide(q, t, v, pos, sq, lag, spurious), w).threads[t].ETest?;
    }
  }

  lemma DeqDecideImage<T>(q: Queue<T>, k: nat, t: nat, lag: nat, spurious: bool, w: WordSize)
    requires Inv(q, k) && k < w && t < |q.threads| && q.threads[t].DDecide? && lag <= q.deq
    requires q.deq - q.threads[t].pos + q.mask + 1 <= Pow2(w)
    ensures var l, m := q.threads[t], Pow2(w);
            DeqDecide(Image(q, w), t, Wrap(l.pos, m), Wrap(l.sq, m), lag, spurious)
            == Image(DeqDecide(q, t, l.pos, l.sq, lag, spurious), w)
            <==> l.sq - (l.pos + 1) < Pow2(w - 1)
  {
    hide And, Pow2, Wrap, SignedSub, ToSigned, ImageSeqs, ImageThreads, Width.Difference;
    var DDecide(pos, sq) := q.threads[t];
    DeqDecideFacts(q, k, t, w);
    NormShift(q.deq, 0 - lag, w);
    NormShift(pos, 1, w);
    ImageOfSet(q, w, t, DDone(None));
    ImageOfSet(q, w, t, DTest(q.deq - lag));
    ImageOfSet(q, w, t, DRead(pos, |q.takers|));
    if sq - (pos + 1) >= Pow2(w - 1) {
      assert DeqDecide(Image(q, w), t, Wrap(pos, Pow2(w)), Wrap(sq, Pow2(w)), lag, spurious).threads[t] == DDone(None);
      assert Image(DeqDecide(q, t, pos, sq, lag, spurious), w).threads[t].DTest?;
    }
  }

  lemma AccessImage<T>(q: Queue<T>, k: nat, t: nat, a: Action<T>, w: WordSize)
    requires Inv(q, k) && k < w && t < |q.threads| && (a == Access || a == Test)
    ensures Step(Image(q, w), t, a) == Image(Step(q, t, a), w)
  {
    hide And, Pow2, Wrap, SignedSub, ToSigned;
    var l := q.threads[t];
    ImageOfSet(q, w, t, Step(q, t, a).threads[t]);
    if l.ETest? || l.DTest? || l.EWrite? || l.DRead? { IndexWraps(l.pos, k, w); }
  }

  lemma ReleaseImage<T>(q: Queue<T>, k: nat, t: nat, w: WordSize)
    requires Inv(q, k) && k < w && t < |q.threads|
    ensures Step(Image(q, w), t, Release) == Image(Step(q, t, Release), w)
  {
    hide And, Pow2, Wrap, SignedSub, ToSigned;
    var l := q.threads[t];
    ImageOfSet(q, w, t, Step(q, t, Release).threads[t]);
    if l.EPublish? || l.DRelease? {
      var i := Index(l.pos, q.mask);
      var v := l.pos + (if l.EPublish? then 1 else q.mask + 1);
      IndexWraps(l.pos, k, w);
      ShiftWrapped(l.pos, v - l.pos, Pow2(w));
      ImageOfUpdate(Set(q, t, Step(q, t, Release).threads[t]), w, i, v);
    }
  }

  lemma LoadImage<T>(q: Queue<T>, k: nat, t: nat, lag: nat, w: WordSize)
    requires Inv(q, k) && k < w && t < |q.threads|
    ensures Step(Image(q, w), t, Load(lag)) == Image(Step(q, t, Load(lag)), w)
  {
    hide And, Pow2, Wrap, SignedSub, ToSigned;
    ImageOfSet(q, w, t, Step(q, t, Load(lag)).threads[t]);
    ShiftWrapped(q.enq, 0 - lag, Pow2(w));
    ShiftWrapped(q.deq, 0 - lag, Pow2(w));
  }

  lemma UndecidedImage<T>(q: Queue<T>, k: nat, t: nat, a: Action<T>, w: WordSize)
    requires Inv(q, k) && k < w && t < |q.threads| && !a.Decide?
    ensures Step(Image(q, w), t, a) == Image(Step(q, t, a), w)
  {
    hide And, Pow2, Wrap, SignedSub, ToSigned;
    match a {
      case Test => AccessImage(q, k, t, a, w);
      case Access => AccessImage(q, k, t, a, w);
      case Release => ReleaseImage(q, k, t, w);
      case Load(lag) => LoadImage(q, k, t, lag, w);
      case CallEnqueue(v) => ImageOfSet(q, w, t, EStart(v));
      case CallDequeue => ImageOfSet(q, w, t, DStart);
      case Return => ImageOfSet(q, w, t, Idle);
      case _ =>
    }
  }

  /** While threads lag by less than a wrap, a step of the w-bit buffer is the image of the same step of
      the unbounded one if and only if the difference it branches on, if any, fits the signed range. */
  lemma StepImageIff<T>(q: Queue<T>, k: nat, t: nat, a: Action<T>, w: WordSize)
    requires Inv(q, k) && k < w && LagsLessThanAWrap(q, t, a, w)
    ensures Step(Image(q, w), t, a) == Image(Step(q, t, a), w) <==> BranchInRange(q, t, a, w)
  {
    hide And, Pow2, Wrap, SignedSub, ToSigned, EnqDecide, DeqDecide;
    if t < |q.threads| {
      if a.Decide? {
        if q.threads[t].EDecide? && a.lag <= q.enq { EnqDecideImage(q, k, t, a.lag, a.spurious, w); }
        if q.threads[t].DDecide? && a.lag <= q.deq { DeqDecideImage(q, k, t, a.lag, a.spurious, w); }
      } else {
        UndecidedImage(q, k, t, a, w);
      }
    }
  }

  /** One step of the w-bit buffer is the image of the same step of the unbounded one. */
  lemma StepImage<T>(q: Queue<T>, k: nat, t: nat, a: Action<T>, w: WordSize)
    requires Inv(q, k) && k < w && LagOk(q, t, a, w)
    ensures Step(Image(q, w), t, a) == Image(Step(q, t, a), w)
  {
    assert Pow2(w) == 2 * Pow2(w - 1);
    hide And, Pow2, Wrap, SignedSub, ToSigned, Image, Step;
    if t < |q.threads| && (q.threads[t].EDecide? || q.threads[t].DDecide?) {
      assert LocalOk(q, t);
      SequenceBound(q, k, Index(q.threads[t].pos, q.mask));
    }
    StepImageIff(q, k, t, a, w);
  }

  /** The lag condition along a whole schedule of the unbounded buffer. */
  ghost predicate NeverLags<T>(q: Queue<T>, sched: Schedule<T>, w: WordSize)
    requires Shaped(q)
    decreases |sched|
  {
    sched == [] ||
    var front := sched[..|sched| - 1];
    NeverLags(q, front, w) && LagOk(Run(q, front), sched[|sched| - 1].0, sched[|sched| - 1].1, w)
  }

  /** Every run of the w-bit buffer, across any number of overflows, is the image of the run of the
      unbounded buffer under the same schedule. */
  lemma {:induction false} RunImage<T>(q: Queue<T>, k: nat, sched: Schedule<T>, w: WordSize)
    requires Inv(q, k) && k < w && NeverLags(q, sched, w)
    ensures Run(Image(q, w), sched) == Image(Run(q, sched), w)
    decreases |sched|
  {
    hide And, Pow2, Wrap, SignedSub, ToSigned, Step, Image;
    if sched != [] {
      var front := sched[..|sched| - 1];
      RunImage(q, k, front, w);
      RunKeepsInv(q, k, front);
      StepImage(Run(q, front), k, sched[|sched| - 1].0, sched[|sched| - 1].1, w);
    }
  }

  lemma InitImage<T>(k: nat, threads: nat, w: WordSize)
    requires 1 <= k < w
    ensures Image(Init<T>(Unbounded, Pow2(k) - 1, threads), w) == Init<T>(Bits(w), Pow2(k) - 1, threads)
  {
    var q := Init<T>(Unbounded, Pow2(k) - 1, threads);
    var r := Init<T>(Bits(w), Pow2(k) - 1, threads);
    DivUnique(0, Pow2(w), 0, 0);
    hide Pow2;
    assert Image(q, w).seqs == r.seqs;
    assert Image(q, w).threads == r.threads;
  }

  /** First in first out with w-bit counters. */
  lemma WrappedTakenInPutOrder<T>(k: nat, threads: nat, sched: Schedule<T>, w: WordSize)
    requires 1 <= k < w && NeverLags(Init<T>(Unbounded, Pow2(k) - 1, threads), sched, w)
    ensures var q := Run(Init<T>(Bits(w), Pow2(k) - 1, threads), sched);
            && |q.takers| <= |q.puts| <= |q.takers| + Pow2(k)
            && (forall p | p in q.got :: p < |q.takers| && q.got[p] == Some(q.puts[p].value))
  {
    var q0 := Init<T>(Unbounded, Pow2(k) - 1, threads);
    InitInv<T>(k, threads);
    InitImage<T>(k, threads, w);
    TakenInPutOrder<T>(k, threads, sched);
    hide And, Pow2, Wrap, SignedSub, ToSigned, Step, Init;
    RunImage(q0, k, sched, w);
    ImageKeepsHistory(Run(q0, sched), w);
  }

  lemma ImageKeepsHistory<T>(q: Queue<T>, w: WordSize)
    requires Shaped(q)
    ensures var r := Image(q, w); r.puts == q.puts && r.takers == q.takers && r.got == q.got
  {
  }

  /** Where the branch goes: claim, report full or empty, or try again. */
  function Verdict(dif: int): int {
    if dif == 0 then 0 else if dif < 0 then -1 else 1
  }

  /** The condition is exact: a difference of less than one full wrap takes the right branch if and
      only if it fits the signed range. */
  lemma BranchRightIffInRange(sq: nat, pos: nat, w: WordSize)
    requires 0 - Pow2(w) < sq - pos < Pow2(w)
    ensures Verdict(Bits(w).Difference(Wrap(sq, Pow2(w)), Wrap(pos, Pow2(w)))) == Verdict(Unbounded.Difference(sq, pos))
       <==> 0 - Pow2(w - 1) <= sq - pos < Pow2(w - 1)
  {
    var m := Pow2(w);
    assert m == 2 * Pow2(w - 1);
    hide Pow2, Wrap, SignedSub;
    SignedSubOfDifference(sq, pos, m);
    SignKeptIffInRange(sq - pos, m);
    ModOfSmall(sq, m);
    ModOfSmall(pos, m);
  }
}
