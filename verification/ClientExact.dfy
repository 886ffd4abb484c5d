/** The condition of the barrier is exact: a client about to arm a slot for 0, the only client of its
    counter, can get past that wait with a job of its own not done if and only if the arming is not clean. */
module ClientExact {
  import WaitSlots
  import SlotLifecycle
  import SlotTheorems
  import SlotWaiters
  import SlotBarrier
  import opened ClientMachine
  import opened ClientInvariant
  import opened ClientBarrier

  /** Fiber 0 is the only client. */
  ghost predicate Sole(s: State) {
    |s.procs| > 0 && IsClient(s.procs[0]) && forall g: nat | 0 < g < |s.procs| :: !IsClient(s.procs[g])
  }

  /** The client is about to arm a slot in its wait for 0 at operation pc. */
  ghost predicate AtArming(s: State, sc: seq<Op>, pc: nat) {
    && Good(s) && Sole(s) && pc < |sc| && sc[pc] == Wait(0)
    && s.procs[0].Waiting? && s.procs[0].script == sc && s.procs[0].pc == pc && s.ctr.fibers[0].Arming?
  }

  ghost predicate HasUndone(s: State) {
    exists j: nat :: j < |s.jobs| && s.jobs[j].maker == 0 && s.jobs[j].state != Done
  }

  /** The client is just past that wait, and a job that it has made is not done. */
  ghost predicate PassedEarly(s: State, sc: seq<Op>, pc: nat) {
    |s.procs| > 0 && s.procs[0] == Client(sc, pc + 1) && HasUndone(s)
  }

  ghost predicate CanPassEarly(s: State, sc: seq<Op>, pc: nat)
    requires Shaped(s)
  {
    exists sched: Schedule :: PassedEarly(Run(s, sched), sc, pc)
  }

  // ---- Not clean: it can

  lemma {:induction false} RunFirst(s: State, f: nat, a: Action, rest: Schedule)
    requires Shaped(s)
    ensures Run(s, [(f, a)] + rest) == Run(Step(s, f, a), rest)
    decreases |rest|
  {
    hide Step;
    var all := [(f, a)] + rest;
    if rest == [] {
      assert all[..|all| - 1] == [];
    } else {
      RunFirst(s, f, a, rest[..|rest| - 1]);
      assert all[..|all| - 1] == [(f, a)] + rest[..|rest| - 1];
    }
  }

  /** The client has armed slot i with arming m and has still to look at the counter. */
  ghost predicate Armed(s: State, sc: seq<Op>, pc: nat, i: nat, m: nat) {
    && Shaped(s) && |s.procs| > 0 && pc < |sc| && SlotLifecycle.Inv(s.ctr)
    && s.procs[0].Waiting? && s.procs[0].script == sc && s.procs[0].pc == pc
    && s.ctr.fibers[0] == WaitSlots.Recheck(i, m) && i < |s.ctr.slots| && m < |s.ctr.arms|
    && s.ctr.arms[m].req.target == 0
  }

  /** Worker g scans on; nothing but the counter changes. */
  lemma ScanOn(s: State, g: nat, sc: seq<Op>, pc: nat, i: nat, m: nat)
    requires Armed(s, sc, pc, i, m) && 0 < g < |s.procs| && s.procs[g].Dropping?
    requires WaitSlots.Scanning(s.ctr.fibers[g])
    ensures var r := Step(s, g, Go);
            Armed(r, sc, pc, i, m) && r.procs == s.procs && r.jobs == s.jobs
            && r.ctr == WaitSlots.Step(s.ctr, g, WaitSlots.Go)
  {
    SlotLifecycle.StepKeepsInv(s.ctr, g, WaitSlots.Go);
    SlotTheorems.ArmsOnlyGrow(s.ctr, g, WaitSlots.Go);
    SlotTheorems.OthersUnmoved(s.ctr, g, WaitSlots.Go, 0);
    hide WaitSlots.Step, SlotLifecycle.Inv;
  }

  /** The scanner that wins arming m is about to put it on its ready list. */
  lemma ScannerWon(c: WaitSlots.Counter, g: nat, i: nat, m: nat)
    requires SlotLifecycle.Inv(c) && i < |c.slots| && c.phase[i] == WaitSlots.Armed(m) && m < |c.arms| && g < |c.fibers|
    requires WaitSlots.Scanning(c.fibers[g]) && SlotWaiters.Threat(c.fibers[g], i, c.arms[m].req.target)
    ensures var r := WaitSlots.Step(c, g, WaitSlots.Go);
            && g < |r.fibers| && i < |r.slots| && m < |r.outcome|
            && (r.outcome[m] != WaitSlots.Open ==>
                  r.fibers[g].ScanPush? && r.fibers[g].i == i && r.fibers[g].arm == m && r.slots[i].inUse)
            && (r.outcome[m] == WaitSlots.Open ==> WaitSlots.Scanning(r.fibers[g]))
  {
    assert SlotLifecycle.SlotOk(c, i) && SlotLifecycle.FiberOk(c, g);
    var l := c.fibers[g];
    if l.ScanPush? || l.ScanTake? { assert SlotLifecycle.SlotOk(c, l.i); }
    hide SlotLifecycle.Inv;
  }

  lemma Pushed(c: WaitSlots.Counter, g: nat, i: nat, m: nat)
    requires WaitSlots.Shaped(c) && g < |c.fibers| && i < |c.slots| && m < |c.arms|
    requires c.fibers[g].ScanPush? && c.fibers[g].i == i && c.fibers[g].arm == m
    ensures var r := WaitSlots.Step(c, g, WaitSlots.Go);
            m < |r.outcome| && r.outcome[m].Woken? && r.slots == c.slots
  {
  }

  ghost predicate Woken(s: State, i: nat, m: nat) {
    i < |s.ctr.slots| && s.ctr.slots[i].inUse && m < |s.ctr.outcome| && s.ctr.outcome[m].Woken?
  }

  lemma {:induction false} ScannerWakes(s: State, g: nat, sc: seq<Op>, pc: nat, i: nat, m: nat)
      returns (sched: Schedule)
    requires Armed(s, sc, pc, i, m) && 0 < g < |s.procs| && s.procs[g].Dropping? && s.ctr.phase[i] == WaitSlots.Armed(m)
    requires WaitSlots.Scanning(s.ctr.fibers[g]) && SlotWaiters.Threat(s.ctr.fibers[g], i, 0)
    ensures var r := Run(s, sched);
            Armed(r, sc, pc, i, m) && r.procs == s.procs && r.jobs == s.jobs && Woken(r, i, m)
    decreases SlotWaiters.Distance(s.ctr.fibers[g], i)
  {
    var r := Step(s, g, Go);
    ScanOn(s, g, sc, pc, i, m);
    SlotWaiters.ThreatCloses(s.ctr, g, i, m);
    ScannerWon(s.ctr, g, i, m);
    SlotTheorems.ArmsOnlyGrow(s.ctr, g, WaitSlots.Go);
    hide Step, WaitSlots.Step, SlotLifecycle.Inv;
    if r.ctr.outcome[m] == WaitSlots.Open {
      var rest := ScannerWakes(r, g, sc, pc, i, m);
      sched := [(g, Go)] + rest;
      RunFirst(s, g, Go, rest);
    } else {
      ScanOn(r, g, sc, pc, i, m);
      Pushed(r.ctr, g, i, m);
      sched := [(g, Go)] + [(g, Go)];
      RunFirst(s, g, Go, [(g, Go)]);
      assert Run(r, [(g, Go)]) == Step(r, g, Go) by { assert [(g, Go)][..0] == []; }
    }
  }

  /** A client whose registration is woken finds its slot in use, and goes to sleep. */
  lemma GoesToSleep(s: State, sc: seq<Op>, pc: nat, i: nat, m: nat) returns (r: State)
    requires Armed(s, sc, pc, i, m) && Woken(s, i, m)
    ensures r == Run(s, [(0, Go), (0, Go)]) && Shaped(r) && |r.procs| > 0 && r.jobs == s.jobs
    ensures r.procs[0] == s.procs[0] && r.ctr.fibers[0] == WaitSlots.Answer(m, false) && r.ctr.outcome == s.ctr.outcome
  {
    var s1 := Step(s, 0, Go);
    assert s1.ctr.fibers[0] == WaitSlots.TestUse(i, m, s.ctr.value) && s1.procs == s.procs && s1.jobs == s.jobs;
    assert s1.ctr.slots == s.ctr.slots && s1.ctr.outcome == s.ctr.outcome;
    r := Step(s1, 0, Go);
    RunTwoSteps(s, Go, Go);
  }

  lemma WakesUp(s: State, sc: seq<Op>, pc: nat, m: nat) returns (r: State)
    requires Shaped(s) && |s.procs| > 0 && s.procs[0].Waiting? && s.procs[0].script == sc && s.procs[0].pc == pc
    requires s.ctr.fibers[0] == WaitSlots.Answer(m, false) && m < |s.ctr.outcome| && s.ctr.outcome[m].Woken?
    ensures r == Run(s, [(0, Go), (0, Go)]) && |r.procs| > 0 && r.procs[0] == Client(sc, pc + 1) && r.jobs == s.jobs
  {
    var s1 := Step(s, 0, Go);
    assert s1.procs[0].Asleep? && s1.procs[0].script == sc && s1.procs[0].pc == pc && s1.procs[0].arm == m;
    assert s1.ctr.outcome == s.ctr.outcome && s1.jobs == s.jobs;
    r := Step(s1, 0, Go);
    RunTwoSteps(s, Go, Go);
  }

  lemma RunTwoSteps(s: State, a: Action, b: Action)
    requires Shaped(s)
    ensures Run(s, [(0, a), (0, b)]) == Step(Step(s, 0, a), 0, b)
  {
    hide Step;
    var two := [(0, a), (0, b)];
    assert two[..|two| - 1] == [(0, a)];
    assert [(0, a)][..|[(0, a)]| - 1] == [];
    assert Run(s, [(0, a)]) == Step(s, 0, a);
  }

  /** With its registration woken the client needs four more steps. */
  lemma FourSteps(s: State, sc: seq<Op>, pc: nat, i: nat, m: nat) returns (sched: Schedule)
    requires Armed(s, sc, pc, i, m) && Woken(s, i, m)
    ensures var r := Run(s, sched); |r.procs| > 0 && r.procs[0] == Client(sc, pc + 1) && r.jobs == s.jobs
  {
    hide Step, Run;
    var a := GoesToSleep(s, sc, pc, i, m);
    var b := WakesUp(a, sc, pc, m);
    RunInTwo(s, [(0, Go), (0, Go)], [(0, Go), (0, Go)]);
    sched := [(0, Go), (0, Go)] + [(0, Go), (0, Go)];
  }

  /** With a positive counter some job is not done, and it is the client's. */
  lemma SomeUndone(s: State)
    requires Good(s) && Sole(s) && s.ctr.value != 0
    ensures HasUndone(s)
  {
    NoneOutstanding(s.jobs);
    var j: nat :| j < |s.jobs| && s.jobs[j].state != Done;
    assert MadeOk(s, j);
  }

  /** The client's own arming step. */
  lemma Arms(s: State, sc: seq<Op>, pc: nat)
    requires AtArming(s, sc, pc)
    ensures var r, i, m := Step(s, 0, Go), s.ctr.fibers[0].i, |s.ctr.arms|;
            && Armed(r, sc, pc, i, m) && r.procs == s.procs && r.jobs == s.jobs && r.ctr.phase[i] == WaitSlots.Armed(m)
            && forall g: nat | 0 < g < |s.procs| :: r.ctr.fibers[g] == s.ctr.fibers[g]
  {
    assert ProcOk(s, 0) && SlotLifecycle.FiberOk(s.ctr, 0) && Shaped(s);
    SlotLifecycle.StepKeepsInv(s.ctr, 0, WaitSlots.Go);
    var r := Step(s, 0, Go);
    assert r == OnCounter(s, 0, WaitSlots.Go);
    SlotTheorems.ArmsOnlyGrow(s.ctr, 0, WaitSlots.Go);
    assert |r.ctr.arms| == |s.ctr.arms| + 1;
    SlotBarrier.NewArming(s.ctr, 0, WaitSlots.Go);
    forall g: nat | 0 < g < |s.procs| ensures r.ctr.fibers[g] == s.ctr.fibers[g] {
      SlotTheorems.OthersUnmoved(s.ctr, 0, WaitSlots.Go, g);
    }
    hide Inv, Good, SlotLifecycle.Inv;
  }

  lemma UncleanCanPass(s: State, sc: seq<Op>, pc: nat) returns (sched: Schedule)
    requires AtArming(s, sc, pc) && !Clean(s, 0, Go)
    ensures PassedEarly(Run(s, sched), sc, pc)
  {
    var i, m := s.ctr.fibers[0].i, |s.ctr.arms|;
    assert ProcOk(s, 0) && Shaped(s);
    var g: nat :| g < |s.ctr.fibers| && g != 0 && SlotWaiters.Threat(s.ctr.fibers[g], i, 0);
    assert ProcOk(s, g) && !IsClient(s.procs[g]);
    SomeUndone(s);
    Arms(s, sc, pc);
    hide Step, Good, Inv, AtArming;
    var s1 := Step(s, 0, Go);
    var a := ScannerWakes(s1, g, sc, pc, i, m);
    var s2 := Run(s1, a);
    var b := FourSteps(s2, sc, pc, i, m);
    RunInTwo(s1, a, b);
    RunFirst(s, 0, Go, a + b);
    sched := [(0, Go)] + (a + b);
  }

  lemma {:induction false} RunInTwo(s: State, a: Schedule, b: Schedule)
    requires Shaped(s)
    ensures Run(s, a + b) == Run(Run(s, a), b)
    decreases |b|
  {
    hide Step;
    if b == [] {
      assert a + b == a;
    } else {
      RunInTwo(s, a, b[..|b| - 1]);
      assert (a + b)[..|a + b| - 1] == a + b[..|b| - 1];
    }
  }

  // ---- Clean: it cannot

  /** AddWaitingFiber is past its arming. */
  predicate PastArming(l: WaitSlots.Local) {
    !l.Acquire? && !l.Fill? && !l.Arming?
  }

  ghost predicate BeforeArming(s: State, sc: seq<Op>, pc: nat) {
    AtArming(s, sc, pc) && Clean(s, 0, Go)
  }

  ghost predicate AfterArming(s: State, sc: seq<Op>, pc: nat) {
    && Good(s) && Sole(s) && pc < |sc| && sc[pc] == Wait(0) && s.procs[0].script == sc && s.procs[0].pc == pc
    && ((s.procs[0].Waiting? && PastArming(s.ctr.fibers[0])) || s.procs[0].Asleep?)
  }

  ghost predicate JustPast(s: State, sc: seq<Op>, pc: nat) {
    Good(s) && Sole(s) && pc < |sc| && sc[pc] == Wait(0) && s.procs[0] == Client(sc, pc + 1)
  }

  /** The client is further on, or an exception has ended its script. */
  ghost predicate LongPast(s: State, sc: seq<Op>, pc: nat) {
    && Inv(s) && |s.procs| > 0 && IsClient(s.procs[0])
    && (s.procs[0].Threw? || (s.procs[0].pc > pc && s.procs[0] != Client(sc, pc + 1)))
  }

  ghost predicate OnItsWay(s: State, sc: seq<Op>, pc: nat) {
    BeforeArming(s, sc, pc) || AfterArming(s, sc, pc) || JustPast(s, sc, pc) || LongPast(s, sc, pc)
  }

  lemma {:induction false} NotMoreOutstanding(a: seq<Job>, b: seq<Job>)
    requires |a| == |b| && forall j: nat | j < |a| && a[j].state == Done :: b[j].state == Done
    ensures Outstanding(b) <= Outstanding(a)
  {
    if a != [] {
      NotMoreOutstanding(a[..|a| - 1], b[..|b| - 1]);
    }
  }

  /** Until the client makes another job, no step makes more outstanding. */
  lemma StaysBounded(s: State, f: nat, a: Action)
    requires Good(s) && Sole(s) && (f == 0 ==> !s.procs[0].Client?)
    ensures Bounded(Step(s, f, a)) && |Step(s, f, a).jobs| == |s.jobs|
  {
    assert Inv(s) && Bounded(s);
    if f < |s.procs| {
      StepShifts(s, f, a);
      hide Step, Inv, Good;
      NotMoreOutstanding(s.jobs, Step(s, f, a).jobs);
    }
  }

  lemma StepKeepsSole(s: State, f: nat, a: Action)
    requires Inv(s) && Sole(s)
    ensures Sole(Step(s, f, a)) && (f != 0 ==> Step(s, f, a).procs[0] == s.procs[0])
    ensures f == 0 ==> NextProc(s.procs[0], Step(s, f, a).procs[0], |s.jobs|)
  {
    if f < |s.procs| {
      StepShifts(s, f, a);
      hide Step, Inv;
    }
  }

  /** Before the client has armed the slot, no scan becomes a threat to it unless the counter gets to 0. */
  lemma WorkerStaysHarmless(c: WaitSlots.Counter, g: nat, i: nat)
    requires SlotLifecycle.Inv(c) && g < |c.fibers| && i < |c.slots| && c.phase[i].Held? && c.slots[i].target == 0
    requires Scans(c.fibers[g]) && !SlotWaiters.Threat(c.fibers[g], i, 0)
    ensures var r := WaitSlots.Step(c, g, WaitSlots.Go); g < |r.fibers| && !SlotWaiters.Threat(r.fibers[g], i, 0)
  {
    assert SlotLifecycle.SlotOk(c, i);
    hide SlotLifecycle.Inv;
  }

  lemma CountDownHarmless(c: WaitSlots.Counter, g: nat, i: nat)
    requires WaitSlots.Shaped(c) && g < |c.fibers| && c.fibers[g] == WaitSlots.Away
    ensures var r := WaitSlots.Step(c, g, WaitSlots.Add(-1));
            g < |r.fibers| && (r.value == 0 || !SlotWaiters.Threat(r.fibers[g], i, 0))
  {
  }

  /** While the client waits to arm, others keep the arming clean. */
  lemma OthersKeepClean(s: State, f: nat, a: Action, sc: seq<Op>, pc: nat)
    requires BeforeArming(s, sc, pc) && 0 < f < |s.procs|
    ensures var r := Step(s, f, a);
            && 0 < |r.ctr.fibers| && r.ctr.fibers[0] == s.ctr.fibers[0]
            && SlotBarrier.CleanArming(r.ctr, 0, WaitSlots.Go)
  {
    var x, i := CounterAction(s, f), s.ctr.fibers[0].i;
    assert ProcOk(s, 0) && ProcOk(s, f) && SlotLifecycle.Inv(s.ctr) && SlotLifecycle.FiberOk(s.ctr, 0) && Conserved(s);
    assert SlotLifecycle.SlotOk(s.ctr, i) && SlotLifecycle.Filler(s.ctr, 0, i);
    CounterMoves(s, f, a);
    SlotTheorems.ArmsOnlyGrow(s.ctr, f, x);
    forall g: nat | g < |s.ctr.fibers| && g != f ensures WaitSlots.Step(s.ctr, f, x).fibers[g] == s.ctr.fibers[g] {
      SlotTheorems.OthersUnmoved(s.ctr, f, x, g);
    }
    if s.procs[f].BodyDone? {
      CountDownHarmless(s.ctr, f, i);
      assert JobOk(s, s.procs[f].job);
      NoneOutstanding(s.jobs);
    } else {
      WorkerStaysHarmless2(s, f, i);
      ValueStays(s.ctr, f, x);
    }
    hide Step, WaitSlots.Step, Inv, Good, SlotLifecycle.Inv;
  }

  lemma WorkerStaysHarmless2(s: State, f: nat, i: nat)
    requires Inv(s) && f < |s.procs| && !IsClient(s.procs[f]) && !s.procs[f].BodyDone?
    requires i < |s.ctr.slots| && s.ctr.phase[i].Held? && s.ctr.slots[i].target == 0
    ensures var r := WaitSlots.Step(s.ctr, f, WaitSlots.Go);
            && CounterAction(s, f) == WaitSlots.Go && f < |r.fibers|
            && (!SlotWaiters.Threat(s.ctr.fibers[f], i, 0) ==> !SlotWaiters.Threat(r.fibers[f], i, 0))
  {
    assert ProcOk(s, f);
    SlotTheorems.ArmsOnlyGrow(s.ctr, f, WaitSlots.Go);
    if !SlotWaiters.Threat(s.ctr.fibers[f], i, 0) { WorkerStaysHarmless(s.ctr, f, i); }
    hide Inv, WaitSlots.Step;
  }

  lemma BeforeStep(s: State, f: nat, a: Action, sc: seq<Op>, pc: nat)
    requires BeforeArming(s, sc, pc)
    ensures OnItsWay(Step(s, f, a), sc, pc)
  {
    var r := Step(s, f, a);
    assert Inv(s);
    if f < |s.procs| {
      StaysBounded(s, f, a);
      StepKeepsGood(s, f, a);
      StepKeepsSole(s, f, a);
      if f != 0 {
        OthersKeepClean(s, f, a, sc, pc);
        hide Step, Good;
        assert BeforeArming(r, sc, pc);
      } else if a == Go {
        Arms(s, sc, pc);
        hide Step, Good;
        assert AfterArming(r, sc, pc);
      } else {
        assert r == s;
      }
    }
  }

  lemma WaiterGoesPast(c: WaitSlots.Counter, f: nat)
    requires WaitSlots.Shaped(c) && f < |c.fibers| && PastArming(c.fibers[f])
    ensures f < |WaitSlots.WaiterStep(c, f).fibers| && PastArming(WaitSlots.WaiterStep(c, f).fibers[f])
  {
  }

  lemma ScannerGoesPast(c: WaitSlots.Counter, f: nat)
    requires WaitSlots.Shaped(c) && f < |c.fibers| && PastArming(c.fibers[f])
    ensures f < |WaitSlots.ScannerStep(c, f).fibers| && PastArming(WaitSlots.ScannerStep(c, f).fibers[f])
  {
  }

  /** A waiter past its arming stays so until it is answered. */
  lemma WaiterStaysPast(c: WaitSlots.Counter, f: nat, x: WaitSlots.Action)
    requires WaitSlots.Shaped(c) && f < |c.fibers|
    requires PastArming(c.fibers[f]) && (x == WaitSlots.Go || x == WaitSlots.Leave)
    ensures f < |WaitSlots.Step(c, f, x).fibers| && PastArming(WaitSlots.Step(c, f, x).fibers[f])
  {
    WaiterGoesPast(c, f);
    ScannerGoesPast(c, f);
    hide WaitSlots.WaiterStep, WaitSlots.ScannerStep;
  }

  lemma AfterStep(s: State, f: nat, a: Action, sc: seq<Op>, pc: nat)
    requires AfterArming(s, sc, pc)
    ensures OnItsWay(Step(s, f, a), sc, pc)
  {
    var r := Step(s, f, a);
    assert Inv(s) && Shaped(s);
    if f < |s.procs| {
      assert ProcOk(s, 0);
      StaysBounded(s, f, a);
      assert Clean(s, f, a);
      StepKeepsGood(s, f, a);
      StepKeepsSole(s, f, a);
      assert Inv(r);
      CounterMoves(s, f, a);
      var x := CounterAction(s, f);
      if f != 0 { SlotTheorems.OthersUnmoved(s.ctr, f, x, 0); }
      else if s.procs[0].Waiting? { WaiterStaysPast(s.ctr, 0, x); }
      SlotTheorems.ArmsOnlyGrow(s.ctr, f, x);
      hide Step, WaitSlots.Step, Good, Inv;
      assert AfterArming(r, sc, pc) || JustPast(r, sc, pc) || LongPast(r, sc, pc);
    }
  }

  lemma PastStep(s: State, f: nat, a: Action, sc: seq<Op>, pc: nat)
    requires JustPast(s, sc, pc)
    ensures OnItsWay(Step(s, f, a), sc, pc)
  {
    var r := Step(s, f, a);
    assert Inv(s);
    if f < |s.procs| {
      StepKeepsSole(s, f, a);
      StepKeepsInv(s, f, a);
      if f != 0 {
        StaysBounded(s, f, a);
        assert Clean(s, f, a);
        StepKeepsGood(s, f, a);
        hide Step, Good, Inv;
        assert JustPast(r, sc, pc);
      } else if r.procs[0] == s.procs[0] {
        StayingPut(s, a, sc, pc);
        assert JustPast(r, sc, pc);
      } else {
        hide Step, Good, Inv;
        assert LongPast(r, sc, pc);
      }
    }
  }

  lemma StayingPut(s: State, a: Action, sc: seq<Op>, pc: nat)
    requires Shaped(s) && |s.procs| > 0 && s.procs[0] == Client(sc, pc + 1) && Step(s, 0, a).procs[0] == s.procs[0]
    ensures Step(s, 0, a) == s
  {
  }

  lemma LongPastStep(s: State, f: nat, a: Action, sc: seq<Op>, pc: nat)
    requires LongPast(s, sc, pc)
    ensures LongPast(Step(s, f, a), sc, pc)
  {
    StepKeepsInv(s, f, a);
    if f < |s.procs| {
      StepShifts(s, f, a);
      hide Step, Inv;
    }
  }

  lemma {:induction false} RunStaysOnItsWay(s: State, sched: Schedule, sc: seq<Op>, pc: nat)
    requires Shaped(s) && OnItsWay(s, sc, pc)
    ensures OnItsWay(Run(s, sched), sc, pc)
    decreases |sched|
  {
    if sched != [] {
      var r := Run(s, sched[..|sched| - 1]);
      var f, a := sched[|sched| - 1].0, sched[|sched| - 1].1;
      RunStaysOnItsWay(s, sched[..|sched| - 1], sc, pc);
      hide Step, BeforeArming, AfterArming, JustPast, LongPast;
      if BeforeArming(r, sc, pc) { BeforeStep(r, f, a, sc, pc); }
      if AfterArming(r, sc, pc) { AfterStep(r, f, a, sc, pc); }
      if JustPast(r, sc, pc) { PastStep(r, f, a, sc, pc); }
      if LongPast(r, sc, pc) { LongPastStep(r, f, a, sc, pc); }
    }
  }

  /** On its way the client is never past the wait with a job not done. */
  lemma NeverEarly(s: State, sc: seq<Op>, pc: nat)
    requires OnItsWay(s, sc, pc)
    ensures !PassedEarly(s, sc, pc)
  {
    forall j: nat | JustPast(s, sc, pc) && j < |s.jobs| && s.jobs[j].maker == 0 ensures s.jobs[j].state == Done {
      assert MadeOk(s, j) && BarrierOk(s, j);
    }
  }

  /** The promise of a Queue or List about one wait holds, whatever happens next, if and only if the arming
      is clean. */
  lemma PassesEarlyIffUnclean(s: State, sc: seq<Op>, pc: nat)
    requires AtArming(s, sc, pc)
    ensures Shaped(s) && (CanPassEarly(s, sc, pc) <==> !Clean(s, 0, Go))
  {
    if Clean(s, 0, Go) {
      assert OnItsWay(s, sc, pc);
      hide OnItsWay, Run, PassedEarly;
      forall sched: Schedule ensures !PassedEarly(Run(s, sched), sc, pc) {
        RunStaysOnItsWay(s, sched, sc, pc);
        NeverEarly(Run(s, sched), sc, pc);
      }
    } else {
      var sched := UncleanCanPass(s, sc, pc);
    }
  }
}
