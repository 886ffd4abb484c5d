/** What holds of jobs and their counter in every run, whatever the armings. */
module ClientTheorems {
  import WaitSlots
  import opened ClientMachine
  import opened ClientInvariant
  import opened ClientBarrier

  function InFlight(jobs: seq<Job>): nat {
    if jobs == [] then 0
    else
      var st := jobs[|jobs| - 1].state;
      InFlight(jobs[..|jobs| - 1]) + if st == Done || st == Lost then 0 else 1
  }

  /** Jobs whose enqueue failed. */
  function LostJobs(jobs: seq<Job>): nat {
    if jobs == [] then 0
    else LostJobs(jobs[..|jobs| - 1]) + if jobs[|jobs| - 1].state == Lost then 1 else 0
  }

  lemma {:induction false} OutstandingSplits(jobs: seq<Job>)
    ensures Outstanding(jobs) == InFlight(jobs) + LostJobs(jobs)
  {
    if jobs != [] {
      OutstandingSplits(jobs[..|jobs| - 1]);
    }
  }

  /** The counter is the number of jobs between their increment and their decrement, plus the failed
      enqueues, up to wrap-around, and exactly while those are fewer than 2^32. */
  lemma CounterIsOutstanding(slots: nat, scripts: seq<seq<Op>>, workers: nat, sched: Schedule)
    ensures CountsOutstanding(Run(Init(slots, scripts, workers), sched))
  {
    hide Inv, Run, Init, CountsOutstanding;
    InitInv(slots, scripts, workers);
    RunKeepsInv(Init(slots, scripts, workers), sched);
    CountIsRight(Run(Init(slots, scripts, workers), sched));
  }

  predicate CountsOutstanding(s: State) {
    var n := InFlight(s.jobs) + LostJobs(s.jobs);
    s.ctr.value == n % 0x1_0000_0000 && (n < 0x1_0000_0000 ==> s.ctr.value == n)
  }

  lemma CountIsRight(s: State)
    requires Inv(s)
    ensures CountsOutstanding(s)
  {
    InvConserved(s);
    hide Inv;
    OutstandingSplits(s.jobs);
  }

  /** A worker about to decrement finds the counter positive. */
  lemma NoUnderflow(s: State, f: nat)
    requires Inv(s) && f < |s.procs| && s.procs[f].BodyDone? && Outstanding(s.jobs) < 0x1_0000_0000
    ensures s.ctr.value >= 1 && Step(s, f, Go).ctr.value == s.ctr.value - 1
  {
    assert ProcOk(s, f);
    NoneOutstanding(s.jobs);
  }

  // ---- Where a job is

  /** Worker f has dequeued job j and not decremented the counter for it. */
  predicate HasInHand(p: Proc, j: nat) {
    match p
    case Holding(i) => i == j
    case InBody(i) => i == j
    case BodyDone(i) => i == j
    case _ => false
  }

  /** A job in hand is in one worker's hand, and is neither queued nor finished nor lost; a job that is
      not queued, finished, lost or still being scheduled is in some worker's hand. */
  lemma JobInOnePlace(s: State, j: nat, f: nat, g: nat)
    requires Inv(s) && j < |s.jobs| && f < |s.procs| && g < |s.procs|
    ensures HasInHand(s.procs[f], j) && HasInHand(s.procs[g], j) ==> f == g
    ensures HasInHand(s.procs[f], j) ==> s.jobs[j].state in {HeldBy(f), RunBy(f), RanBy(f)}
    ensures s.jobs[j].state in {HeldBy(f), RunBy(f), RanBy(f)} ==> HasInHand(s.procs[f], j)
  {
    assert ProcOk(s, f) && ProcOk(s, g) && JobOk(s, j);
    if Works(s.procs[f], j) && !HasInHand(s.procs[f], j) {
      assert s.procs[f].Counting? || s.procs[f].Offering?;
    }
  }

  /** The stations of a job, in order. */
  predicate NextState(a: JobState, b: JobState) {
    match a
    case Counted(_) => b == Queued || b == Lost
    case Queued => b.HeldBy?
    case HeldBy(f) => b == RunBy(f)
    case RunBy(f) => b == RanBy(f)
    case RanBy(_) => b == Done
    case Done => false
    case Lost => false
  }

  lemma JobOnlyAdvances(s: State, f: nat, a: Action, j: nat)
    requires Inv(s) && j < |s.jobs|
    ensures var r := Step(s, f, a);
            j < |r.jobs| && (r.jobs[j].state == s.jobs[j].state || NextState(s.jobs[j].state, r.jobs[j].state))
  {
    if f < |s.procs| {
      assert ProcOk(s, f);
      StepShifts(s, f, a);
    }
    assert Shaped(s);
    hide Inv, OnCounter, WaitingStep;
  }

  /** 1 if the body of job j is begun between the two states. */
  function StartsBetween(before: State, after: State, j: nat): nat {
    if j < |before.jobs| && j < |after.jobs| && !before.jobs[j].state.RunBy? && after.jobs[j].state.RunBy? then 1 else 0
  }

  /** How often the body of job j has been begun in the run. */
  function BodyStarts(s: State, sched: Schedule, j: nat): nat
    requires Shaped(s)
    decreases |sched|
  {
    if sched == [] then 0
    else
      var front := sched[..|sched| - 1];
      BodyStarts(s, front, j) + StartsBetween(Run(s, front), Run(s, sched), j)
  }

  predicate Begun(s: State, j: nat) {
    j < |s.jobs| && (s.jobs[j].state.RunBy? || s.jobs[j].state.RanBy? || s.jobs[j].state == Done)
  }

  lemma StepStarts(s: State, f: nat, a: Action, j: nat)
    requires Inv(s)
    ensures StartsBetween(s, Step(s, f, a), j)
            == (if Begun(Step(s, f, a), j) then 1 else 0) - (if Begun(s, j) then 1 else 0)
  {
    if j < |s.jobs| { JobOnlyAdvances(s, f, a, j); }
    else if j < |Step(s, f, a).jobs| { NewJobIsCounted(s, f, a, j); }
    assert Shaped(s);
    hide Step, Inv;
  }

  /** The body of every job is begun at most once, and exactly once if the job has been counted down. */
  lemma {:induction false} BodyRunsOnce(s0: State, sched: Schedule, j: nat)
    requires Inv(s0) && s0.jobs == []
    ensures BodyStarts(s0, sched, j) == if Begun(Run(s0, sched), j) then 1 else 0
    decreases |sched|
  {
    if sched != [] {
      var front := sched[..|sched| - 1];
      RunKeepsInv(s0, front);
      BodyRunsOnce(s0, front, j);
      StepStarts(Run(s0, front), sched[|sched| - 1].0, sched[|sched| - 1].1, j);
    }
    assert Shaped(s0);
    hide Step, Inv, StartsBetween, Begun;
  }

  lemma NewJobIsCounted(s: State, f: nat, a: Action, j: nat)
    requires Inv(s) && |s.jobs| <= j < |Step(s, f, a).jobs|
    ensures Step(s, f, a).jobs[j].state.Counted?
  {
    if f < |s.procs| {
      StepShifts(s, f, a);
      hide Step, Inv;
    }
  }

  // ---- Jobs that throw

  /** Job j is lost exactly if the call of ScheduleJob that made it threw, and counted only, exactly while that
      call is under way. */
  ghost predicate LostOk(s: State, j: nat)
    requires j < |s.jobs|
  {
    var job := s.jobs[j];
    job.maker < |s.procs| &&
    var p := s.procs[job.maker];
    && (job.state == Lost <==> p.Threw? && p.pc == job.op)
    && (job.state.Counted? <==> (p.Counting? || p.Offering?) && p.job == j)
  }

  ghost predicate LostInv(s: State) {
    forall j: nat | j < |s.jobs| :: LostOk(s, j)
  }

  lemma OfferMoves(s: State, f: nat, a: Action)
    requires Inv(s) && f < |s.procs| && s.procs[f].Offering?
    ensures var r, p := Step(s, f, a), s.procs[f];
            && p.job < |s.jobs|
            && (a == Go ==> r.procs == s.procs[f := Client(p.script, p.pc + 1)]
                            && r.jobs == s.jobs[p.job := s.jobs[p.job].(state := Queued)])
            && (a == Fail ==> r.procs == s.procs[f := Threw(p.script, p.pc)]
                              && r.jobs == s.jobs[p.job := s.jobs[p.job].(state := Lost)])
            && (a.Take? ==> r == s)
  {
    assert ProcOk(s, f);
    hide Inv;
  }

  /** But for the end of ScheduleJob, no step makes a job lost or ends its being counted only. */
  lemma OthersLoseNothing(s: State, f: nat, a: Action, j: nat)
    requires Inv(s) && f < |s.procs| && !s.procs[f].Offering? && j < |s.jobs|
    ensures var r := Step(s, f, a);
            && j < |r.jobs| && (r.jobs[j].state == Lost <==> s.jobs[j].state == Lost)
            && (r.jobs[j].state.Counted? <==> s.jobs[j].state.Counted?)
  {
    assert ProcOk(s, f);
    JobOnlyAdvances(s, f, a, j);
    hide Inv, OnCounter, WaitingStep;
  }

  lemma OthersKeepLost(s: State, f: nat, a: Action, j: nat)
    requires Inv(s) && Ordered(s) && LostInv(s) && f < |s.procs| && !s.procs[f].Offering?
    requires j < |Step(s, f, a).jobs|
    ensures LostOk(Step(s, f, a), j)
  {
    StepShifts(s, f, a);
    if j < |s.jobs| {
      OthersLoseNothing(s, f, a, j);
      assert LostOk(s, j) && MadeOk(s, j);
    }
    hide Step, Inv, Ordered, LostInv;
  }

  lemma OfferKeepsLost(s: State, f: nat, a: Action, j: nat)
    requires Inv(s) && Ordered(s) && LostInv(s) && f < |s.procs| && s.procs[f].Offering?
    requires j < |Step(s, f, a).jobs|
    ensures LostOk(Step(s, f, a), j)
  {
    OfferMoves(s, f, a);
    assert ProcOk(s, f) && LostOk(s, j) && MadeOk(s, j);
    hide Step, Inv, Ordered, LostInv;
  }

  lemma StepKeepsLost(s: State, f: nat, a: Action)
    requires Inv(s) && Ordered(s) && LostInv(s)
    ensures LostInv(Step(s, f, a))
  {
    var r := Step(s, f, a);
    if f < |s.procs| {
      forall j: nat | j < |r.jobs| ensures LostOk(r, j) {
        if s.procs[f].Offering? { OfferKeepsLost(s, f, a, j); } else { OthersKeepLost(s, f, a, j); }
      }
      hide Step;
    }
  }

  lemma {:induction false} RunKeepsLost(s: State, sched: Schedule)
    requires Inv(s) && Ordered(s) && LostInv(s)
    ensures Inv(Run(s, sched)) && Ordered(Run(s, sched)) && LostInv(Run(s, sched))
    decreases |sched|
  {
    assert Shaped(s);
    hide Step, Inv, Ordered, LostInv;
    if sched != [] {
      var front, u, a := sched[..|sched| - 1], sched[|sched| - 1].0, sched[|sched| - 1].1;
      RunKeepsLost(s, front);
      assert Shaped(Run(s, front));
      StepKeepsInv(Run(s, front), u, a);
      StepKeepsOrdered(Run(s, front), u, a);
      StepKeepsLost(Run(s, front), u, a);
    }
  }

  /** In every run a job is lost if and only if the ScheduleJob that made it threw; its body is then never begun.
      A job whose ScheduleJob returned is queued, in a worker's hand, or done. */
  lemma LostIffThrew(slots: nat, scripts: seq<seq<Op>>, workers: nat, sched: Schedule, j: nat)
    requires j < |Run(Init(slots, scripts, workers), sched).jobs|
    ensures LostExactly(Run(Init(slots, scripts, workers), sched), j)
    ensures Run(Init(slots, scripts, workers), sched).jobs[j].state == Lost
            ==> BodyStarts(Init(slots, scripts, workers), sched, j) == 0
  {
    var s0 := Init(slots, scripts, workers);
    InitInv(slots, scripts, workers);
    NoJobsYet(slots, scripts, workers);
    hide Inv, Run, Init, Step, Ordered, LostInv, BodyStarts, LostExactly, Shaped;
    RunKeepsLost(s0, sched);
    LostFacts(Run(s0, sched), j);
    BodyRunsOnce(s0, sched, j);
  }

  ghost predicate LostExactly(s: State, j: nat)
    requires j < |s.jobs|
  {
    var job := s.jobs[j];
    job.maker < |s.procs| && IsClient(s.procs[job.maker]) &&
    var p := s.procs[job.maker];
    && (job.state == Lost <==> p.Threw? && p.pc == job.op)
    && (job.op < p.pc ==> job.state != Lost && !job.state.Counted?)
  }

  lemma LostFacts(s: State, j: nat)
    requires Inv(s) && Ordered(s) && LostInv(s) && j < |s.jobs|
    ensures LostExactly(s, j)
  {
    assert LostOk(s, j) && MadeOk(s, j) && ProcOk(s, s.jobs[j].maker);
  }

  lemma NoJobsYet(slots: nat, scripts: seq<seq<Op>>, workers: nat)
    ensures var s := Init(slots, scripts, workers); s.jobs == [] && Ordered(s) && LostInv(s)
  {
  }
}
