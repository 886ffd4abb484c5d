/** IO threads: exactly how one gets past the test that keeps it to IO jobs; and what becomes of fibers
    woken on one, whose ready list is never looked at. */
module FiberIo {
  import opened FiberMachine
  import opened FiberInvariant
  import opened FiberTheorems

  /** GetNextJob beyond the test for an IO thread: the ready list, the normal and the low queue. */
  predicate BeyondIoTest(l: Stage) {
    l.Scanning? || l.PoolSwitch? || l.Tail?
    || ((l.CleanRead? || l.CleanStore? || l.CleanReset?) && l.after == ToTail)
  }

  /** GetNextJob at the ready list. */
  predicate AtReadyList(l: Stage) {
    l.Scanning? || l.PoolSwitch?
  }

  predicate Beyond(s: State, w: nat) {
    w < |s.exec| && s.exec[w].Running? && s.exec[w].fiber < |s.stage| && BeyondIoTest(s.stage[s.exec[w].fiber])
  }

  /** Thread w goes on with a fiber that had been put into the pool in the middle of GetNextJob. */
  predicate Resumes(s: State, u: nat, a: Action, w: nat) {
    u == w < |s.exec| && a == Next && s.exec[w].Running? && s.exec[w].fiber < |s.stage|
    && s.stage[s.exec[w].fiber].PoolResume?
  }

  lemma OwnFibers(s: State, u: nat, w: nat)
    requires Inv(s) && u < |s.exec| && w < |s.exec| && u != w && s.exec[u].Running? && s.exec[w].Running?
    ensures s.exec[u].fiber != s.exec[w].fiber
  {
    assert ThreadOk(s, u) && ThreadOk(s, w);
  }

  /** Another thread's step does not move w. */
  lemma ElsewhereStays(s: State, u: nat, a: Action, w: nat)
    requires Inv(s) && w < |s.exec| && u != w
    ensures var r := Step(s, u, a);
            && w < |r.exec| && r.exec[w] == s.exec[w] && r.tls[w].isIO == s.tls[w].isIO
            && (s.exec[w].Running? ==> s.exec[w].fiber < |s.stage| && |r.stage| == |s.stage|
                                       && r.stage[s.exec[w].fiber] == s.stage[s.exec[w].fiber])
  {
    StepTouches(s, u, a);
    if s.exec[w].Running? {
      assert ThreadOk(s, w);
      if u < |s.exec| && s.exec[u].Running? { OwnFibers(s, u, w); }
    }
    hide Inv, Step;
  }

  /** Where an IO thread stands after its own step. */
  ghost predicate PassesIff(s: State, r: State, w: nat, resumes: bool) {
    w < |r.exec| && (Beyond(r, w) <==> resumes)
    && (r.exec[w].Running? && r.exec[w].fiber < |r.stage| ==> !AtReadyList(r.stage[r.exec[w].fiber]))
  }

  lemma NextPasses(s: State, w: nat, f: nat)
    requires Inv(s) && w < |s.exec| && s.tls[w].isIO && s.exec[w] == Running(f) && !Beyond(s, w)
    ensures f < |s.stage| && PassesIff(s, NextOf(s, w, f), w, s.stage[f].PoolResume?)
  {
    assert ThreadOk(s, w) && FlagOk(s, f);
    match s.stage[f] {
      case WaitSwitch(_, _, g) => assert FiberOk(s, g);
      case _ =>
    }
    assert Shaped(s);
    hide HandOver, Inv;
  }

  lemma BasePasses(s: State, a: Action, w: nat)
    requires Inv(s) && w < |s.exec| && s.tls[w].isIO && !s.exec[w].Running?
    ensures PassesIff(s, Step(s, w, a), w, false)
  {
    assert ThreadOk(s, w);
    if s.exec[w].BaseHolding? { assert FiberOk(s, s.exec[w].fiber); }
    hide Inv, FiberStep;
  }

  lemma RunningPasses(s: State, a: Action, w: nat, f: nat)
    requires Inv(s) && w < |s.exec| && s.tls[w].isIO && s.exec[w] == Running(f) && !Beyond(s, w)
    ensures f < |s.stage| && PassesIff(s, FiberStep(s, w, f, a), w, Resumes(s, w, a, w))
  {
    assert ThreadOk(s, w);
    if a == Next { NextPasses(s, w, f); }
    assert Shaped(s);
    hide NextOf, Inv;
  }

  lemma OwnStepPasses(s: State, a: Action, w: nat)
    requires Inv(s) && w < |s.exec| && s.tls[w].isIO && !Beyond(s, w)
    ensures PassesIff(s, Step(s, w, a), w, Resumes(s, w, a, w))
  {
    if s.exec[w].Running? { RunningPasses(s, a, w, s.exec[w].fiber); } else { BasePasses(s, a, w); }
    assert Shaped(s);
    hide Inv, FiberStep, PassesIff;
  }

  /** An IO thread that is not beyond the test gets beyond it by a step if and only if it goes on, in that
      step, with a fiber that was pooled in the middle of GetNextJob. */
  lemma BeyondIffResumes(s: State, u: nat, a: Action, w: nat)
    requires Inv(s) && w < |s.exec| && s.tls[w].isIO && !Beyond(s, w)
    ensures Beyond(Step(s, u, a), w) <==> Resumes(s, u, a, w)
  {
    if u == w { OwnStepPasses(s, a, w); } else { ElsewhereStays(s, u, a, w); }
    hide Step, Inv;
  }

  lemma StepKeepsThreads(s: State, u: nat, a: Action)
    requires Shaped(s)
    ensures |Step(s, u, a).exec| == |s.exec|
    ensures forall w: nat | w < |s.exec| :: Step(s, u, a).tls[w].isIO == s.tls[w].isIO
  {
    StepTouches(s, u, a);
    hide Step;
  }

  lemma {:induction false} RunKeepsThreads(s: State, sched: Schedule)
    requires Shaped(s)
    ensures |Run(s, sched).exec| == |s.exec|
    ensures forall w: nat | w < |s.exec| :: Run(s, sched).tls[w].isIO == s.tls[w].isIO
    decreases |sched|
  {
    hide Step;
    if sched != [] {
      RunKeepsThreads(s, sched[..|sched| - 1]);
      StepKeepsThreads(Run(s, sched[..|sched| - 1]), sched[|sched| - 1].0, sched[|sched| - 1].1);
    }
  }

  // ---- Over whole runs

  predicate BeyondAt(s: State, sched: Schedule, w: nat, j: nat)
    requires Shaped(s)
  {
    j <= |sched| && Beyond(Run(s, sched[..j]), w)
  }

  predicate ResumesAt(s: State, sched: Schedule, w: nat, j: nat)
    requires Shaped(s)
  {
    j < |sched| && Resumes(Run(s, sched[..j]), sched[j].0, sched[j].1, w)
  }

  lemma {:induction false} PrefixOk(s: State, sched: Schedule, j: nat)
    requires Shaped(s) && StepsOk(s, sched) && j <= |sched|
    ensures StepsOk(s, sched[..j])
    decreases |sched|
  {
    hide Step, StepOk;
    if j < |sched| {
      PrefixOk(s, sched[..|sched| - 1], j);
      assert sched[..|sched| - 1][..j] == sched[..j];
    } else {
      assert sched[..j] == sched;
    }
  }

  lemma PrefixStep(s: State, sched: Schedule, j: nat)
    requires Shaped(s) && j < |sched|
    ensures Run(s, sched[..j + 1]) == Step(Run(s, sched[..j]), sched[j].0, sched[j].1)
  {
    hide Step;
    assert sched[..j + 1][..j] == sched[..j] && sched[..j + 1][j] == sched[j];
  }

  /** All steps but the last keep the invariant; the last may be any. */
  ghost predicate AllButLastOk(s: State, sched: Schedule)
    requires Shaped(s)
  {
    sched == [] || StepsOk(s, sched[..|sched| - 1])
  }

  lemma PrefixState(s: State, sched: Schedule, w: nat, j: nat)
    requires Inv(s) && AllButLastOk(s, sched) && j < |sched| && w < |s.exec| && s.tls[w].isIO
    ensures Inv(Run(s, sched[..j])) && w < |Run(s, sched[..j]).exec| && Run(s, sched[..j]).tls[w].isIO
  {
    var front := sched[..|sched| - 1];
    PrefixOk(s, front, j);
    assert front[..j] == sched[..j];
    RunKeepsInv(s, sched[..j]);
    RunKeepsThreads(s, sched[..j]);
  }

  lemma {:induction false} BeyondHasResumed(s: State, sched: Schedule, w: nat, j: nat) returns (i: nat)
    requires Inv(s) && AllButLastOk(s, sched) && w < |s.exec| && s.tls[w].isIO && !Beyond(s, w)
    requires BeyondAt(s, sched, w, j)
    ensures ResumesAt(s, sched, w, i)
  {
    assert Shaped(s) && Run(s, []) == s;
    assert j > 0;
    i := j - 1;
    if BeyondAt(s, sched, w, i) {
      i := BeyondHasResumed(s, sched, w, i);
    } else {
      PrefixState(s, sched, w, i);
      PrefixStep(s, sched, i);
      BeyondIffResumes(Run(s, sched[..i]), sched[i].0, sched[i].1, w);
      hide Run, Step, Inv, StepsOk;
    }
  }

  /** An IO thread gets to the ready list or to the normal and low queues in a run if and only if it goes on,
      in that run, with a fiber that was pooled in the middle of GetNextJob.  The last step of the run may
      be any, so that it may be the very step by which it does. */
  lemma IoThreadsRunOnlyIoJobsIff(fibers: nat, io: seq<bool>, sched: Schedule, w: nat)
    requires AllButLastOk(Init(fibers, io), sched) && w < |io| && io[w]
    ensures (exists j: nat :: BeyondAt(Init(fibers, io), sched, w, j))
       <==> (exists j: nat :: ResumesAt(Init(fibers, io), sched, w, j))
  {
    var s := Init(fibers, io);
    InitInv(fibers, io);
    assert !Beyond(s, w) && w < |s.exec| && s.tls[w].isIO;
    hide Init, Inv, Run, Step, AllButLastOk;
    if j: nat :| BeyondAt(s, sched, w, j) {
      var i := BeyondHasResumed(s, sched, w, j);
    }
    if i: nat :| ResumesAt(s, sched, w, i) {
      PrefixState(s, sched, w, i);
      PrefixStep(s, sched, i);
      BeyondIffResumes(Run(s, sched[..i]), sched[i].0, sched[i].1, w);
      assert BeyondAt(s, sched, w, i + 1);
    }
  }

  // ---- Ready lists of IO threads

  /** No IO thread is at its ready list. */
  ghost predicate NoIoScan(s: State)
    requires Shaped(s)
  {
    forall w: nat | w < |s.exec| && s.tls[w].isIO && s.exec[w].Running? && s.exec[w].fiber < |s.stage| ::
      !AtReadyList(s.stage[s.exec[w].fiber])
  }

  lemma NextAvoidsReadyList(s: State, w: nat, f: nat)
    requires Inv(s) && w < |s.exec| && s.tls[w].isIO && s.exec[w] == Running(f)
    requires f < |s.stage| && !AtReadyList(s.stage[f])
    ensures var r := NextOf(s, w, f);
            r.exec[w].Running? && r.exec[w].fiber < |r.stage| ==> !AtReadyList(r.stage[r.exec[w].fiber])
  {
    assert ThreadOk(s, w);
    match s.stage[f] {
      case WaitSwitch(_, _, g) => assert FiberOk(s, g);
      case _ =>
    }
    assert Shaped(s);
    hide HandOver, Inv;
  }

  lemma OwnStepAvoidsReadyList(s: State, a: Action, w: nat)
    requires Inv(s) && NoIoScan(s) && w < |s.exec| && s.tls[w].isIO
    ensures var r := Step(s, w, a);
            r.exec[w].Running? && r.exec[w].fiber < |r.stage| ==> !AtReadyList(r.stage[r.exec[w].fiber])
  {
    assert ThreadOk(s, w);
    match s.exec[w] {
      case BaseHolding(i) => assert FiberOk(s, i);
      case Running(f) =>
        if a == Next { NextAvoidsReadyList(s, w, f); }
        assert Shaped(s) && f < |s.stage|;
        hide NextOf, Inv;
      case _ =>
    }
  }

  lemma StepKeepsNoIoScan(s: State, u: nat, a: Action)
    requires Inv(s) && NoIoScan(s)
    ensures NoIoScan(Step(s, u, a))
  {
    var r := Step(s, u, a);
    StepKeepsThreads(s, u, a);
    forall w: nat | w < |r.exec| && r.tls[w].isIO && r.exec[w].Running? && r.exec[w].fiber < |r.stage|
      ensures !AtReadyList(r.stage[r.exec[w].fiber])
    {
      if u == w { OwnStepAvoidsReadyList(s, a, w); } else { ElsewhereStays(s, u, a, w); }
    }
    hide Step, Inv;
  }

  /** What was on an IO thread's ready list stays there, at its place. */
  lemma IoReadyOnlyGrows(s: State, u: nat, a: Action, w: nat)
    requires Inv(s) && NoIoScan(s) && w < |s.exec| && s.tls[w].isIO
    ensures w < |Step(s, u, a).tls| && s.tls[w].ready <= Step(s, u, a).tls[w].ready
  {
    StepTouches(s, u, a);
  }

  lemma {:induction false} RunKeepsIo(s: State, sched: Schedule, w: nat)
    requires Inv(s) && NoIoScan(s) && StepsOk(s, sched) && w < |s.exec| && s.tls[w].isIO
    ensures Inv(Run(s, sched)) && NoIoScan(Run(s, sched)) && |Run(s, sched).exec| == |s.exec|
    ensures Run(s, sched).tls[w].isIO && s.tls[w].ready <= Run(s, sched).tls[w].ready
    decreases |sched|
  {
    if sched != [] {
      var front := sched[..|sched| - 1];
      RunKeepsIo(s, front, w);
      var m, u, a := Run(s, front), sched[|sched| - 1].0, sched[|sched| - 1].1;
      StepKeepsInvIff(m, u, a);
      StepKeepsNoIoScan(m, u, a);
      StepKeepsThreads(m, u, a);
      IoReadyOnlyGrows(m, u, a, w);
      assert Shaped(m);
      hide Inv, NoIoScan, Step, StepOk;
      assert Run(s, sched) == Step(m, u, a);
    }
  }

  /** A fiber woken on an IO thread never gets past its wait: whatever happens afterwards, its entry stays
      on that list and the fiber stays in the same WaitForCounter. */
  lemma WokenOnIoThreadIsStranded(fibers: nat, io: seq<bool>, before: Schedule, after: Schedule, w: nat, k: nat)
    requires var s := Run(Init(fibers, io), before);
             StepsOk(Init(fibers, io), before) && StepsOk(s, after)
             && w < |io| && io[w] && w < |s.tls| && k < |s.tls[w].ready|
    ensures var s := Run(Init(fibers, io), before);
            var r, e := Run(s, after), s.tls[w].ready[k];
            && w < |r.tls| && k < |r.tls[w].ready| && r.tls[w].ready[k] == e
            && e.fiber < |r.stage| && HoldsReg(r.stage[e.fiber], e.flag, e.reg)
  {
    var s0 := Init(fibers, io);
    InitInv(fibers, io);
    assert NoIoScan(s0) && w < |s0.exec| && s0.tls[w].isIO;
    hide Init, Run;
    RunKeepsIo(s0, before, w);
    var s := Run(s0, before);
    RunKeepsIo(s, after, w);
    assert EntryOk(Run(s, after), w, k);
  }
}
