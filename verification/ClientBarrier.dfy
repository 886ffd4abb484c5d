/** Waiting for 0 is a barrier: when all armings are clean, everything a client has scheduled before a
    wait for 0 has finished once the client is past that wait, by whatever route the wait returned. */
module ClientBarrier {
  import WaitSlots
  import SlotTheorems
  import SlotWaiters
  import SlotBarrier
  import opened Jobs
  import opened ClientMachine
  import opened ClientInvariant

  predicate IsClient(p: Proc) {
    p.Client? || p.Counting? || p.Offering? || p.Waiting? || p.Asleep? || p.Threw?
  }

  /** Whether an operation counts and enqueues a job. */
  predicate Schedules(op: Op) {
    op.Sched? && !op.prio.Unknown?
  }

  /** Every arming of the step is clean (SlotBarrier.CleanArming). */
  ghost predicate Clean(s: State, f: nat, a: Action)
    requires Shaped(s)
  {
    f < |s.procs| && s.procs[f].Waiting? && a == Go ==> SlotBarrier.CleanArming(s.ctr, f, WaitSlots.Go)
  }

  ghost predicate CleanRun(s: State, sched: Schedule)
    requires Shaped(s)
    decreases |sched|
  {
    sched == [] ||
    var front := sched[..|sched| - 1];
    CleanRun(s, front) && Clean(Run(s, front), sched[|sched| - 1].0, sched[|sched| - 1].1)
  }

  /** Job j was made by an operation of its maker's script. */
  ghost predicate MadeOk(s: State, j: nat)
    requires j < |s.jobs|
  {
    var job := s.jobs[j];
    job.maker < |s.procs| && IsClient(s.procs[job.maker]) &&
    var p := s.procs[job.maker];
    && job.op < |p.script| && Schedules(p.script[job.op]) && p.script[job.op].id == job.id
    && job.op <= p.pc && (job.op == p.pc ==> (p.Counting? && p.job == j) || (p.Offering? && p.job == j) || p.Threw?)
    && (p.Waiting? || p.Asleep? ==> j < p.since)
  }

  /** A client makes its jobs in the order of its script. */
  ghost predicate OrderOk(s: State, j: nat, k: nat)
    requires j < k < |s.jobs|
  {
    s.jobs[j].maker == s.jobs[k].maker ==> s.jobs[j].op < s.jobs[k].op
  }

  /** What its maker has waited for since is done. */
  ghost predicate BarrierOk(s: State, j: nat)
    requires j < |s.jobs|
  {
    var job := s.jobs[j];
    job.maker < |s.procs| && IsClient(s.procs[job.maker]) ==>
      var p := s.procs[job.maker];
      forall q: nat | job.op < q < p.pc && q < |p.script| && p.script[q] == Wait(0) :: job.state == Done
  }

  /** Client f has made a job for operation o. */
  ghost predicate HasJob(s: State, f: nat, o: nat) {
    exists j: nat :: Made(s, j, f, o)
  }

  ghost predicate AllMade(s: State, f: nat)
    requires f < |s.procs|
  {
    var p := s.procs[f];
    IsClient(p) ==> forall o: nat | o < p.pc && o < |p.script| && Schedules(p.script[o]) :: HasJob(s, f, o)
  }

  ghost predicate Ordered(s: State) {
    && (forall j: nat | j < |s.jobs| :: MadeOk(s, j))
    && (forall j: nat, k: nat | j < k < |s.jobs| :: OrderOk(s, j, k))
    && (forall f: nat | f < |s.procs| :: AllMade(s, f))
  }

  ghost predicate Barriers(s: State) {
    forall j: nat | j < |s.jobs| :: BarrierOk(s, j)
  }

  // ---- Order: no hypothesis needed

  /** How a client, or a worker, moves on when n jobs have been counted. */
  predicate NextProc(p: Proc, q: Proc, n: nat) {
    match p
    case Client(sc, pc) =>
      || q == p
      || (pc < |sc| && !Schedules(sc[pc]) && q == Client(sc, pc + 1))
      || (pc < |sc| && Schedules(sc[pc]) && q == Counting(sc, pc, n))
      || (pc < |sc| && sc[pc].Wait? && q == Waiting(sc, pc, n))
    case Counting(sc, pc, j) => q == p || q == Offering(sc, pc, j)
    case Offering(sc, pc, j) => q == p || q == Client(sc, pc + 1) || q == Threw(sc, pc)
    case Waiting(sc, pc, since) =>
      q == p || q == Client(sc, pc + 1) || q == Threw(sc, pc)
      || (q.Asleep? && q.script == sc && q.pc == pc && q.since == since)
    case Asleep(sc, pc, _, _) => q == p || q == Client(sc, pc + 1)
    case Threw(_, _) => q == p
    case _ => !IsClient(q)
  }

  /** What a step does to procs and jobs, the counter aside. */
  ghost predicate Shift(s: State, r: State, f: nat)
    requires f < |s.procs|
  {
    && |r.procs| == |s.procs| && r.procs == s.procs[f := r.procs[f]] && NextProc(s.procs[f], r.procs[f], |s.jobs|)
    && |s.jobs| <= |r.jobs| <= |s.jobs| + 1
    && (forall j: nat | j < |s.jobs| :: r.jobs[j] == s.jobs[j].(state := r.jobs[j].state))
    && (forall j: nat | j < |s.jobs| && s.jobs[j].state == Done :: r.jobs[j].state == Done)
    && (|r.jobs| > |s.jobs| <==> s.procs[f].Client? && r.procs[f].Counting?)
    && (|r.jobs| > |s.jobs| ==>
          var p := s.procs[f];
          p.pc < |p.script| && Schedules(p.script[p.pc])
          && r.jobs[|s.jobs|] == Job(p.script[p.pc].id, f, p.pc, Counted(f)))
  }

  lemma BeginShifts(s: State, f: nat, script: seq<Op>, pc: nat)
    requires Shaped(s) && f < |s.procs| && s.procs[f] == Client(script, pc)
    ensures Shift(s, BeginOp(s, f, script, pc), f)
  {
  }

  lemma WaitingShifts(s: State, f: nat, script: seq<Op>, pc: nat, since: nat)
    requires Shaped(s) && f < |s.procs| && s.procs[f] == Waiting(script, pc, since)
    ensures Shift(s, WaitingStep(s, f, script, pc, since), f)
  {
  }

  lemma JobShifts(s: State, f: nat, a: Action)
    requires Inv(s) && f < |s.procs| && (s.procs[f].Idle? || s.procs[f].Holding? || s.procs[f].InBody?)
    ensures Shift(s, Step(s, f, a), f)
  {
    assert ProcOk(s, f);
    hide Inv, OnCounter, BeginOp, WaitingStep;
  }

  lemma DecrementShifts(s: State, f: nat, a: Action)
    requires Inv(s) && f < |s.procs| && (s.procs[f].BodyDone? || s.procs[f].Dropping?)
    ensures Shift(s, Step(s, f, a), f)
  {
    assert ProcOk(s, f);
    hide Inv, OnCounter, BeginOp, WaitingStep;
  }

  lemma WorkerShifts(s: State, f: nat, a: Action)
    requires Inv(s) && f < |s.procs| && !IsClient(s.procs[f])
    ensures Shift(s, Step(s, f, a), f)
  {
    if s.procs[f].BodyDone? || s.procs[f].Dropping? { DecrementShifts(s, f, a); } else { JobShifts(s, f, a); }
    hide Inv, Step;
  }

  lemma StepShifts(s: State, f: nat, a: Action)
    requires Inv(s) && f < |s.procs|
    ensures Shift(s, Step(s, f, a), f)
  {
    assert ProcOk(s, f);
    match s.procs[f] {
      case Client(script, pc) => BeginShifts(s, f, script, pc);
      case Waiting(script, pc, since) => WaitingShifts(s, f, script, pc, since);
      case Counting(_, _, _) =>
      case Offering(_, _, _) =>
      case Asleep(_, _, _, _) =>
      case Threw(_, _) =>
      case _ => WorkerShifts(s, f, a);
    }
    hide Inv, BeginOp, WaitingStep;
  }

  lemma ShiftKeepsMade(s: State, r: State, f: nat, j: nat)
    requires Inv(s) && Ordered(s) && f < |s.procs| && Shift(s, r, f) && j < |r.jobs|
    ensures MadeOk(r, j)
  {
    if j < |s.jobs| { assert MadeOk(s, j); }
    hide Inv, Ordered;
  }

  lemma ShiftKeepsAllMade(s: State, r: State, f: nat, g: nat)
    requires Inv(s) && Ordered(s) && f < |s.procs| && Shift(s, r, f) && g < |r.procs|
    ensures AllMade(r, g)
  {
    assert AllMade(s, g) && ProcOk(s, f);
    hide Inv, Ordered;
    var p, q := s.procs[g], r.procs[g];
    if IsClient(q) {
      forall o: nat | o < q.pc && o < |q.script| && Schedules(q.script[o]) ensures HasJob(r, g, o) {
        var j: nat;
        if o < p.pc {
          assert HasJob(s, g, o);
          j :| Made(s, j, g, o);
        } else {
          assert p.Offering? && g == f;
          j := p.job;
        }
        assert Made(r, j, g, o);
      }
    }
  }

  lemma StepKeepsOrdered(s: State, f: nat, a: Action)
    requires Inv(s) && Ordered(s)
    ensures Ordered(Step(s, f, a))
  {
    if f < |s.procs| {
      var r := Step(s, f, a);
      StepShifts(s, f, a);
      hide Step;
      forall j: nat | j < |r.jobs| ensures MadeOk(r, j) { ShiftKeepsMade(s, r, f, j); }
      forall g: nat | g < |r.procs| ensures AllMade(r, g) { ShiftKeepsAllMade(s, r, f, g); }
      forall j: nat, k: nat | j < k < |r.jobs| ensures OrderOk(r, j, k) {
        assert MadeOk(s, j);
        if k < |s.jobs| { assert OrderOk(s, j, k); }
        hide Inv, Ordered;
      }
    }
  }

  // ---- The barrier

  /** The counter has not wrapped round: fewer than 2^32 jobs are outstanding. */
  ghost predicate Bounded(s: State) {
    Outstanding(s.jobs) < 0x1_0000_0000
  }

  ghost predicate BoundedRun(s: State, sched: Schedule)
    requires Shaped(s)
    decreases |sched|
  {
    Bounded(Run(s, sched)) && (sched == [] || BoundedRun(s, sched[..|sched| - 1]))
  }

  /** An arming whose target 0 was reached found all jobs counted before it done. */
  ghost predicate HitOk(s: State, m: nat)
  {
    m in s.ctr.hits && m < |s.ctr.arms| && m < |s.before| && s.ctr.arms[m].req.target == 0 ==>
      forall j: nat | j < s.before[m] && j < |s.jobs| :: s.jobs[j].state == Done
  }

  ghost predicate HitsOk(s: State) {
    forall m: nat | m < |s.ctr.arms| :: HitOk(s, m)
  }

  lemma AllDone(s: State)
    requires Conserved(s) && s.ctr.value == 0 && Bounded(s)
    ensures forall j: nat | j < |s.jobs| :: s.jobs[j].state == Done
  {
    NoneOutstanding(s.jobs);
  }

  /** What step, if any, the counter makes in a step of fiber f. */
  function CounterAction(s: State, f: nat): WaitSlots.Action
    requires Shaped(s) && f < |s.procs|
  {
    match s.procs[f]
    case Client(sc, pc) =>
      if pc < |sc| && sc[pc].Wait? then WaitSlots.Register(WaitSlots.Request(f, 0, sc[pc].target)) else WaitSlots.Add(1)
    case BodyDone(_) => WaitSlots.Add(-1)
    case Waiting(_, _, _) =>
      if s.ctr.fibers[f].Answer? || s.ctr.fibers[f] == WaitSlots.SlotsFull then WaitSlots.Leave else WaitSlots.Go
    case _ => WaitSlots.Go
  }

  ghost predicate CounterStepped(s: State, r: State, f: nat, x: WaitSlots.Action)
    requires WaitSlots.Shaped(s.ctr)
  {
    (r.ctr == s.ctr && r.before == s.before)
    || (r.ctr == WaitSlots.Step(s.ctr, f, x) && s.before <= r.before)
  }

  lemma BeginOnCounter(s: State, f: nat, sc: seq<Op>, pc: nat)
    requires Shaped(s) && f < |s.procs| && s.procs[f] == Client(sc, pc)
    ensures CounterStepped(s, BeginOp(s, f, sc, pc), f, CounterAction(s, f))
  {
    hide WaitSlots.Step;
  }

  lemma WaitingOnCounter(s: State, f: nat, sc: seq<Op>, pc: nat, since: nat)
    requires Shaped(s) && f < |s.procs| && s.procs[f] == Waiting(sc, pc, since)
    ensures CounterStepped(s, WaitingStep(s, f, sc, pc, since), f, CounterAction(s, f))
  {
    hide WaitSlots.Step;
  }

  lemma CounterMoves(s: State, f: nat, a: Action)
    requires Shaped(s) && f < |s.procs|
    ensures CounterStepped(s, Step(s, f, a), f, CounterAction(s, f))
  {
    match s.procs[f] {
      case Client(sc, pc) => BeginOnCounter(s, f, sc, pc);
      case Waiting(sc, pc, since) => WaitingOnCounter(s, f, sc, pc, since);
      case _ =>
    }
    hide BeginOp, WaitingStep, WaitSlots.Step;
  }

  /** No fiber but one in a wait arms a slot. */
  lemma CleanOnCounter(s: State, f: nat, a: Action)
    requires Inv(s) && f < |s.procs| && Clean(s, f, a)
    ensures Step(s, f, a).ctr == s.ctr || SlotBarrier.CleanArming(s.ctr, f, CounterAction(s, f))
  {
    assert ProcOk(s, f);
    if s.procs[f].Waiting? && a != Go { assert Step(s, f, a) == s; }
    hide Inv, Step;
  }

  lemma StepKeepsHits(s: State, f: nat, a: Action)
    requires Inv(s) && HitsOk(s) && Bounded(Step(s, f, a))
    ensures HitsOk(Step(s, f, a))
  {
    var r := Step(s, f, a);
    StepKeepsInv(s, f, a);
    if f < |s.procs| {
      var x := CounterAction(s, f);
      CounterMoves(s, f, a);
      StepShifts(s, f, a);
      SlotTheorems.ArmsOnlyGrow(s.ctr, f, x);
      InvConserved(r);
      assert BeforeOk(s) && BeforeOk(r);
      forall m: nat | m < |r.ctr.arms| ensures HitOk(r, m) {
        if m in s.ctr.hits {
          if m < |s.ctr.arms| { assert HitOk(s, m); }
          assert m < |s.ctr.arms|;
        } else if m in r.ctr.hits {
          SlotWaiters.HitNow(s.ctr, f, x, m);
          if r.ctr.arms[m].req.target == 0 { AllDone(r); }
        }
      }
    }
    hide Step, Inv;
  }

  /** A client gets past a wait for 0 only when all it has scheduled is done. */
  lemma WaitPassed(s: State, f: nat, a: Action, j: nat)
    requires Inv(s) && Ordered(s) && SlotBarrier.Sound(s.ctr) && Bounded(s) && HitsOk(s)
    requires f < |s.procs| && (s.procs[f].Client? || s.procs[f].Waiting? || s.procs[f].Asleep?)
    requires s.procs[f].pc < |s.procs[f].script| && s.procs[f].script[s.procs[f].pc] == Wait(0)
    requires var q := Step(s, f, a).procs; f < |q| && q[f] == Client(s.procs[f].script, s.procs[f].pc + 1)
    requires j < |s.jobs| && s.jobs[j].maker == f
    ensures s.jobs[j].state == Done
  {
    assert ProcOk(s, f) && MadeOk(s, j);
    match s.procs[f] {
      case Client(_, _) => AllDone(s);
      case Waiting(_, _, _) =>
        assert SlotBarrier.SeenOk(s.ctr, f);
        assert HitOk(s, s.ctr.fibers[f].own);
      case Asleep(_, _, _, m) =>
        SlotBarrier.ResolvedWasReached(s.ctr, m);
        assert HitOk(s, m);
      case _ =>
    }
  }

  lemma StepKeepsBarriers(s: State, f: nat, a: Action)
    requires Inv(s) && Ordered(s) && SlotBarrier.Sound(s.ctr) && Bounded(s) && HitsOk(s) && Barriers(s)
    ensures Barriers(Step(s, f, a))
  {
    if f < |s.procs| {
      var r := Step(s, f, a);
      StepShifts(s, f, a);
      forall j: nat | j < |r.jobs| ensures BarrierOk(r, j) {
        if j < |s.jobs| {
          assert BarrierOk(s, j) && MadeOk(s, j);
          var p := s.procs[f];
          assert ProcOk(s, f);
          if p.Offering? { assert MadeOk(s, p.job); }
          if s.jobs[j].maker == f && r.procs[f].pc == p.pc + 1 && p.pc < |p.script| && p.script[p.pc] == Wait(0) {
            WaitPassed(s, f, a, j);
          }
        }
        hide Step, Inv, Ordered, Barriers;
      }
    }
  }

  ghost predicate Good(s: State) {
    Inv(s) && Ordered(s) && SlotBarrier.Sound(s.ctr) && Barriers(s) && HitsOk(s) && Bounded(s)
  }

  lemma InitGood(slots: nat, scripts: seq<seq<Op>>, workers: nat)
    ensures Good(Init(slots, scripts, workers))
  {
    InitInv(slots, scripts, workers);
    SlotBarrier.InitSound(slots, |scripts| + workers);
  }

  /** A step whose arming, if any, is clean and which does not wrap the counter round keeps all of it. */
  lemma StepKeepsGood(s: State, f: nat, a: Action)
    requires Good(s) && Clean(s, f, a) && Bounded(Step(s, f, a))
    ensures Good(Step(s, f, a))
  {
    StepKeepsInv(s, f, a);
    StepKeepsOrdered(s, f, a);
    StepKeepsBarriers(s, f, a);
    StepKeepsHits(s, f, a);
    if f < |s.procs| {
      CounterMoves(s, f, a);
      CleanOnCounter(s, f, a);
      if Step(s, f, a).ctr != s.ctr { SlotBarrier.StepKeepsSound(s.ctr, f, CounterAction(s, f)); }
    }
    hide Inv, Ordered, SlotBarrier.Sound, Barriers, HitsOk, Step;
  }

  lemma {:induction false} RunKeepsGood(s: State, sched: Schedule)
    requires Good(s) && CleanRun(s, sched) && BoundedRun(s, sched)
    ensures Good(Run(s, sched))
    decreases |sched|
  {
    assert Shaped(s);
    hide Step, Good, Inv, Clean, Bounded;
    if sched != [] {
      var front := sched[..|sched| - 1];
      RunKeepsGood(s, front);
      StepKeepsGood(Run(s, front), sched[|sched| - 1].0, sched[|sched| - 1].1);
    }
  }

  /** In every run whose armings are clean, with never 2^32 jobs outstanding: when a client is past a wait
      for 0, all jobs that its script schedules before that wait have been made, and are done. */
  lemma WaitForZeroIsABarrier(slots: nat, scripts: seq<seq<Op>>, workers: nat, sched: Schedule, f: nat, o: nat, q: nat)
    requires var s0 := Init(slots, scripts, workers);
             var s := Run(s0, sched);
             && CleanRun(s0, sched) && BoundedRun(s0, sched)
             && f < |s.procs| && IsClient(s.procs[f]) && o < q < s.procs[f].pc && q < |s.procs[f].script|
             && s.procs[f].script[q] == Wait(0) && Schedules(s.procs[f].script[o])
    ensures var s := Run(Init(slots, scripts, workers), sched);
            exists j: nat :: Made(s, j, f, o) && s.jobs[j].id == s.procs[f].script[o].id && s.jobs[j].state == Done
  {
    InitGood(slots, scripts, workers);
    RunKeepsGood(Init(slots, scripts, workers), sched);
    var s := Run(Init(slots, scripts, workers), sched);
    assert AllMade(s, f);
    assert HasJob(s, f, o);
    var j: nat :| Made(s, j, f, o);
    assert MadeOk(s, j) && BarrierOk(s, j);
  }
}
