/** The two callbacks of a fiber: which fiber runs the main callback, what a fiber of each kind can come to
    do, and how its callback ends.  All but the last part holds in every run whatsoever. */
module FiberCallbacks {
  import opened FiberMachine
  import opened FiberInvariant
  import opened FiberTheorems
  import Registry

  /** Inside FiberCallback_Worker's loop, but not in a job. */
  predicate InWorkerLoop(l: Stage) {
    match l
    case Loop => true
    case Scanning(_) => true
    case PoolSwitch(_) => true
    case PoolResume(_) => true
    case Tail => true
    case CleanRead(_, _, after) => after != ToJob
    case CleanStore(_, _, _, _, after) => after != ToJob
    case CleanReset(_, after) => after != ToJob
    case _ => false
  }

  /** Thread 0 has switched to its first fiber. */
  predicate MainStarted(s: State) {
    |s.exec| > 0 && !s.exec[0].BaseStart? && !s.exec[0].BaseHolding?
  }

  ghost predicate MainOk(s: State)
    requires Shaped(s)
  {
    && (forall f: nat | f < |s.idle| && s.isMain[f] :: MainStarted(s) && !InWorkerLoop(s.stage[f]))
    && (forall f: nat, g: nat | f < |s.idle| && g < |s.idle| && s.isMain[f] && s.isMain[g] :: f == g)
  }

  lemma FiberStepKeepsMain(s: State, u: nat, f: nat, a: Action)
    requires Shaped(s) && u < |s.exec| && f < |s.stage| && s.exec[u] == Running(f)
    ensures var r := FiberStep(s, u, f, a);
            && r.isMain == s.isMain && !r.exec[u].BaseStart? && !r.exec[u].BaseHolding?
            && (s.isMain[f] && !InWorkerLoop(s.stage[f]) ==> !InWorkerLoop(r.stage[f]))
  {
    if a == Next { NextKeepsMain(s, u, f); }
    hide NextOf;
  }

  lemma NextKeepsMain(s: State, u: nat, f: nat)
    requires Shaped(s) && u < |s.exec| && f < |s.stage| && s.exec[u] == Running(f)
    ensures var r := NextOf(s, u, f);
            && r.isMain == s.isMain && r.exec[u].Running?
            && (s.isMain[f] && !InWorkerLoop(s.stage[f]) ==> !InWorkerLoop(r.stage[f]))
  {
    NextKeepsCallback(s, u, f);
    if s.isMain[f] && !InWorkerLoop(s.stage[f]) { NextLeavesLoop(s, u, f); }
    hide NextOf;
  }

  lemma NextKeepsCallback(s: State, u: nat, f: nat)
    requires Shaped(s) && u < |s.exec| && f < |s.stage| && s.exec[u] == Running(f)
    ensures NextOf(s, u, f).isMain == s.isMain && NextOf(s, u, f).exec[u].Running?
  {
  }

  lemma NextLeavesLoop(s: State, u: nat, f: nat)
    requires Shaped(s) && u < |s.exec| && f < |s.stage| && s.isMain[f] && !InWorkerLoop(s.stage[f])
    ensures !InWorkerLoop(NextOf(s, u, f).stage[f])
  {
    match s.stage[f] {
      case Fresh =>
      case WaitSwitch(_, _, _) => hide SwitchTo;
      case CleanRead(_, _, _) =>
      case CleanStore(_, _, _, _, _) => hide HandOver;
      case CleanReset(_, _) =>
      case WaitResume(_, _) =>
      case _ =>
    }
  }

  lemma StepKeepsMain(s: State, u: nat, a: Action)
    requires Shaped(s) && MainOk(s)
    ensures MainOk(Step(s, u, a))
  {
    StepTouches(s, u, a);
    if u < |s.exec| && s.exec[u].Running? && s.exec[u].fiber < |s.stage| {
      FiberStepKeepsMain(s, u, s.exec[u].fiber, a);
      hide FiberStep;
    }
  }

  lemma {:induction false} RunKeepsMain(s: State, sched: Schedule)
    requires Shaped(s) && MainOk(s)
    ensures MainOk(Run(s, sched))
    decreases |sched|
  {
    hide Step, MainOk;
    if sched != [] {
      RunKeepsMain(s, sched[..|sched| - 1]);
      StepKeepsMain(Run(s, sched[..|sched| - 1]), sched[|sched| - 1].0, sched[|sched| - 1].1);
    }
  }

  /** In every run at most one fiber has the main callback, none before thread 0 has switched to a fiber, and it
      never gets into the worker's loop: it takes no jobs from the queues and resumes no ready fiber. */
  lemma OneMainFiber(fibers: nat, io: seq<bool>, sched: Schedule, f: nat, g: nat)
    requires var s := Run(Init(fibers, io), sched);
             f < |s.idle| && g < |s.idle| && s.isMain[f] && (s.isMain[g] || f == g)
    ensures var s := Run(Init(fibers, io), sched); f == g && MainStarted(s) && !InWorkerLoop(s.stage[f])
  {
    RunKeepsMain(Init(fibers, io), sched);
  }

  /** It is the one that thread 0 switches to from its own frame, if that has not been entered before. */
  lemma MainIsThreadZeros(s: State, u: nat, a: Action, f: nat)
    requires Shaped(s) && f < |s.idle| && !s.isMain[f]
    ensures Step(s, u, a).isMain[f]
       <==> u == 0 && a == Next && |s.exec| > 0 && s.exec[0] == BaseHolding(f) && s.stage[f] == Fresh
  {
    if u < |s.exec| && s.exec[u].Running? && s.exec[u].fiber < |s.stage| {
      FiberStepKeepsMain(s, u, s.exec[u].fiber, a);
      hide FiberStep;
    }
  }

  // ---- How a callback ends

  /** A thread gets back to its own frame by a step if and only if the fiber it executes is at the end of its
      callback: the main callback has returned, or the worker's loop has seen the shutdown.  A worker goes on
      with its loop after a job. */
  lemma CallbackEnds(s: State, u: nat, f: nat, a: Action)
    requires Inv(s) && u < |s.exec| && f < |s.idle| && s.exec[u] == Running(f)
    ensures var r, l := Step(s, u, a), s.stage[f];
            && (r.exec[u].Home? <==> (l == Job && a == Finish && s.isMain[f]) || (l == Loop && a == Exit))
            && (r.exec[u].Home? ==> r.exec[u] == Home(u) && r.stage[f] == Exited && r.idle == s.idle)
            && (l == Job && a == Finish && !s.isMain[f] ==> r == SetStage(s, f, Loop))
  {
    assert ThreadOk(s, u);
    if a == Next { NextKeepsCallback(s, u, f); }
    hide Inv, NextOf, Registry.Apply;
  }

  /** A fiber whose callback has ended is gone: no step that keeps the invariant executes it again, makes it
      idle or moves it, nor a thread that is back in its own frame. */
  lemma EndedForGood(s: State, u: nat, a: Action, f: nat, w: nat)
    requires Reachable(s) && Shaped(s) && StepOk(s, u, a)
    ensures f < |s.idle| && s.stage[f] == Exited ==>
              var r := Step(s, u, a);
              r.stage[f] == Exited && !r.idle[f] && forall v: nat | v < |r.exec| :: r.exec[v] != Running(f)
    ensures w < |s.exec| && s.exec[w].Home? ==> Step(s, u, a).exec[w] == s.exec[w]
  {
    ReachableInv(s);
    var r := Step(s, u, a);
    StepTouches(s, u, a);
    StepKeepsInvIff(s, u, a);
    if f < |s.idle| && s.stage[f] == Exited {
      assert u < |s.exec| && s.exec[u].Running? ==> ThreadOk(s, u);
      assert FiberOk(s, f);
      AtIsPlace(s, f, Gone);
      if u < |s.exec| { AtIsPlace(s, f, RunsOn(u)); }
      assert r.stage[f] == Exited;
      AtIsPlace(r, f, Gone);
      assert FiberOk(r, f);
      forall v: nat | v < |r.exec| ensures r.exec[v] != Running(f) { AtIsPlace(r, f, RunsOn(v)); }
    }
    HomeStays(s, u, a, w);
    hide Step;
  }

  lemma HomeStays(s: State, u: nat, a: Action, w: nat)
    requires Shaped(s)
    ensures w < |s.exec| && s.exec[w].Home? ==> Step(s, u, a).exec[w] == s.exec[w]
  {
    StepTouches(s, u, a);
    hide FiberStep;
  }
}
