/** Calls on a counter come to an end: whatever the slots hold, a worker with a job, or a client that
    schedules one, gets through by its own steps alone. */
module ClientSolo {
  import WaitSlots
  import SlotLifecycle
  import opened Jobs
  import opened ClientMachine
  import opened ClientInvariant

  /** At most how many steps are left of a scan over n slots. */
  function ScanLeft(l: WaitSlots.Local, n: nat): nat {
    match l
    case Scan(i, _) => if i < n then 6 * (n - i) + 1 else 1
    case ScanUse(i, _) => if i < n then 6 * (n - i) else 0
    case ScanTarget(i, _) => if i < n then 6 * (n - i) - 1 else 0
    case ScanTake(i, _) => if i < n then 6 * (n - i) - 2 else 0
    case ScanPush(i, _, _) => if i < n then 6 * (n - i) - 3 else 0
    case ScanFree(i, _, _) => if i < n then 6 * (n - i) - 4 else 0
    case _ => 0
  }

  lemma ScanGetsOn(c: WaitSlots.Counter, f: nat)
    requires SlotLifecycle.Inv(c) && f < |c.fibers| && WaitSlots.Scanning(c.fibers[f])
    ensures var r := WaitSlots.Step(c, f, WaitSlots.Go);
            && |r.slots| == |c.slots| && |r.fibers| == |c.fibers|
            && (r.fibers[f] == WaitSlots.Away || WaitSlots.Scanning(r.fibers[f]))
            && ScanLeft(r.fibers[f], |r.slots|) < ScanLeft(c.fibers[f], |c.slots|)
  {
    assert SlotLifecycle.FiberOk(c, f);
    hide SlotLifecycle.Inv;
  }

  /** Fiber f goes on for n steps, nobody else moving. */
  function Gos(s: State, f: nat, n: nat): (r: State)
    requires Shaped(s)
    ensures Shaped(r)
    decreases n
  {
    if n == 0 then s else Gos(Step(s, f, Go), f, n - 1)
  }

  /** What follows a scan: the worker is free for the next job, the client comes to its enqueue. */
  function AfterScan(p: Proc): Proc
    requires p.Dropping? || p.Counting?
  {
    match p
    case Dropping(_) => Idle
    case Counting(script, pc, j) => Offering(script, pc, j)
  }

  lemma ScanningStep(s: State, f: nat)
    requires Inv(s) && f < |s.procs| && (s.procs[f].Dropping? || s.procs[f].Counting?)
    requires s.ctr.fibers[f] != WaitSlots.Away
    ensures var r := Step(s, f, Go);
            && Inv(r) && |r.procs| == |s.procs| && r.procs == s.procs && r.jobs == s.jobs
            && ScanLeft(r.ctr.fibers[f], |r.ctr.slots|) < ScanLeft(s.ctr.fibers[f], |s.ctr.slots|)
  {
    StepKeepsInv(s, f, Go);
    assert ProcOk(s, f) && SlotLifecycle.Inv(s.ctr);
    ScanGetsOn(s.ctr, f);
    hide Inv, SlotLifecycle.Inv, ScanLeft, WaitSlots.Step;
  }

  /** Fiber f's scan is over, and nothing but the counter has moved meanwhile. */
  predicate ScanOver(s: State, r: State, f: nat) {
    f < |s.procs| && (s.procs[f].Dropping? || s.procs[f].Counting?)
    && r.procs == s.procs[f := AfterScan(s.procs[f])] && r.jobs == s.jobs
  }

  lemma LastOfScan(s: State, f: nat)
    requires Inv(s) && f < |s.procs| && (s.procs[f].Dropping? || s.procs[f].Counting?)
    requires s.ctr.fibers[f] == WaitSlots.Away
    ensures Inv(Step(s, f, Go)) && ScanOver(s, Step(s, f, Go), f)
  {
    StepKeepsInv(s, f, Go);
    hide Inv;
  }

  lemma GosOne(s: State, f: nat)
    requires Shaped(s)
    ensures Gos(s, f, 1) == Step(s, f, Go)
  {
    hide Step;
    assert Gos(Step(s, f, Go), f, 0) == Step(s, f, Go);
  }

  lemma InvShaped(s: State)
    requires Inv(s)
    ensures Shaped(s)
  {
  }

  lemma ScanningOver(s: State, r: State, f: nat)
    requires f < |s.procs| && Shaped(s) && r.jobs == s.jobs
    ensures forall t: State | r.procs == s.procs && ScanOver(r, t, f) :: ScanOver(s, t, f)
  {
  }

  lemma {:induction false} ScanEnds(s: State, f: nat) returns (n: nat)
    requires Inv(s) && f < |s.procs| && (s.procs[f].Dropping? || s.procs[f].Counting?)
    ensures Inv(Gos(s, f, n)) && ScanOver(s, Gos(s, f, n), f)
    decreases ScanLeft(s.ctr.fibers[f], |s.ctr.slots|)
  {
    hide Inv, Step, ScanLeft, ScanOver, AfterScan;
    InvShaped(s);
    if s.ctr.fibers[f] == WaitSlots.Away {
      n := 1;
      LastOfScan(s, f);
      GosOne(s, f);
    } else {
      ScanningStep(s, f);
      var m := ScanEnds(Step(s, f, Go), f);
      n := m + 1;
      ScanningOver(s, Step(s, f, Go), f);
    }
  }

  lemma {:induction false} GosOn(s: State, f: nat, n: nat, m: nat)
    requires Shaped(s)
    ensures Gos(s, f, n + m) == Gos(Gos(s, f, n), f, m)
    decreases n
  {
    hide Step;
    if n > 0 { GosOn(Step(s, f, Go), f, n - 1, m); }
  }

  /** Fiber f has moved to p and job j to st; no other fiber and no other job has moved. */
  predicate Moved(s: State, r: State, f: nat, j: nat, p: Proc, st: JobState) {
    f < |s.procs| && j < |s.jobs|
    && r.procs == s.procs[f := p] && r.jobs == s.jobs[j := s.jobs[j].(state := st)]
  }

  /** The job's body, and the decrement. */
  lemma RunsJob(s: State, f: nat, j: nat) returns (n: nat)
    requires Inv(s) && f < |s.procs| && s.procs[f] == Holding(j)
    ensures Inv(Gos(s, f, n)) && Moved(s, Gos(s, f, n), f, j, Dropping(j), Done)
  {
    assert Shaped(s) && ProcOk(s, f);
    StepKeepsInv(s, f, Go);
    var a := Step(s, f, Go);
    assert Moved(s, a, f, j, InBody(j), RunBy(f));
    StepKeepsInv(a, f, Go);
    var b := Step(a, f, Go);
    assert Moved(a, b, f, j, BodyDone(j), RanBy(f));
    CountsDown(b, f, j);
    var c := Step(b, f, Go);
    n := 3;
    GosThree(s, f);
    hide Inv, Gos, Step;
  }

  lemma CountsDown(s: State, f: nat, j: nat)
    requires Inv(s) && f < |s.procs| && s.procs[f] == BodyDone(j) && j < |s.jobs|
    ensures Inv(Step(s, f, Go)) && Moved(s, Step(s, f, Go), f, j, Dropping(j), Done)
  {
    StepKeepsInv(s, f, Go);
    hide Inv, OnCounter;
  }

  lemma GosThree(s: State, f: nat)
    requires Shaped(s)
    ensures Gos(s, f, 3) == Step(Step(Step(s, f, Go), f, Go), f, Go)
  {
    hide Step;
    assert Gos(s, f, 3) == Gos(Step(s, f, Go), f, 2);
    assert Gos(Step(s, f, Go), f, 2) == Gos(Step(Step(s, f, Go), f, Go), f, 1);
  }

  lemma ThenScans(s: State, b: State, r: State, f: nat, j: nat)
    requires Moved(s, b, f, j, Dropping(j), Done) && ScanOver(b, r, f)
    ensures Moved(s, r, f, j, Idle, Done)
  {
  }

  /** A worker that has taken a job gets it run and counted down by its own steps alone, and is then free
      for the next; no other job and no other fiber has moved. */
  lemma WorkerGetsDone(s: State, f: nat, j: nat) returns (n: nat)
    requires Inv(s) && f < |s.procs| && s.procs[f] == Holding(j)
    ensures Moved(s, Gos(s, f, n), f, j, Idle, Done)
  {
    assert Shaped(s);
    hide Inv, Gos, Step, ScanLeft, ScanOver;
    var first := RunsJob(s, f, j);
    var b := Gos(s, f, first);
    var rest := ScanEnds(b, f);
    n := first + rest;
    GosOn(s, f, first, rest);
    ThenScans(s, b, Gos(b, f, rest), f, j);
  }

  lemma BeginsCounting(s: State, f: nat, script: seq<Op>, pc: nat)
    requires Inv(s) && f < |s.procs| && s.procs[f] == Client(script, pc) && pc < |script|
    requires script[pc].Sched? && !script[pc].prio.Unknown?
    ensures var r := Step(s, f, Go);
            && Inv(r) && r.procs == s.procs[f := Counting(script, pc, |s.jobs|)]
            && r.jobs == s.jobs + [Job(script[pc].id, f, pc, Counted(f))]
  {
    StepKeepsInv(s, f, Go);
    hide Inv, OnCounter;
  }

  lemma OfferReturns(s: State, f: nat, script: seq<Op>, pc: nat, j: nat)
    requires Inv(s) && f < |s.procs| && s.procs[f] == Offering(script, pc, j) && j < |s.jobs|
    ensures Moved(s, Step(s, f, Go), f, j, Client(script, pc + 1), Queued)
  {
    hide Inv;
  }

  /** The call has returned, with one job more, which is queued. */
  predicate Scheduled(s: State, r: State, f: nat, script: seq<Op>, pc: nat) {
    f < |s.procs| && pc < |script| && script[pc].Sched?
    && r.procs == s.procs[f := Client(script, pc + 1)]
    && r.jobs == s.jobs + [Job(script[pc].id, f, pc, Queued)]
  }

  lemma ThenOffers(s: State, a: State, b: State, r: State, f: nat, script: seq<Op>, pc: nat)
    requires f < |s.procs| && pc < |script| && script[pc].Sched?
    requires a.procs == s.procs[f := Counting(script, pc, |s.jobs|)]
    requires a.jobs == s.jobs + [Job(script[pc].id, f, pc, Counted(f))]
    requires ScanOver(a, b, f) && Moved(b, r, f, |s.jobs|, Client(script, pc + 1), Queued)
    ensures Scheduled(s, r, f, script, pc)
  {
  }

  lemma OffersThen(s: State, a: State, b: State, f: nat, script: seq<Op>, pc: nat)
    requires f < |s.procs| && pc < |script| && script[pc].Sched? && Inv(b)
    requires a.procs == s.procs[f := Counting(script, pc, |s.jobs|)]
    requires a.jobs == s.jobs + [Job(script[pc].id, f, pc, Counted(f))]
    requires ScanOver(a, b, f)
    ensures Scheduled(s, Step(b, f, Go), f, script, pc)
  {
    hide Inv;
    OfferReturns(b, f, script, pc, |s.jobs|);
    ThenOffers(s, a, b, Step(b, f, Go), f, script, pc);
    hide Step;
  }

  /** A ScheduleJob whose queue has room returns by its client's steps alone, with its job queued. */
  lemma ScheduleReturns(s: State, f: nat, script: seq<Op>, pc: nat) returns (n: nat)
    requires Inv(s) && f < |s.procs| && s.procs[f] == Client(script, pc) && pc < |script|
    requires script[pc].Sched? && !script[pc].prio.Unknown?
    ensures Scheduled(s, Gos(s, f, n), f, script, pc)
  {
    hide Inv, ScanLeft, Step, ScanOver, Scheduled;
    InvShaped(s);
    BeginsCounting(s, f, script, pc);
    var a := Step(s, f, Go);
    var m := ScanEnds(a, f);
    var b := Gos(a, f, m);
    n := (m + 1) + 1;
    GosOn(s, f, m + 1, 1);
    OffersThen(s, a, b, f, script, pc);
    InvShaped(b);
    GosOne(b, f);
  }
}
