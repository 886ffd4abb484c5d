/** Counter and job conservation: in every run the counter is the number of jobs past their increment and
    not past their decrement (lost ones included), modulo 2^32, and each job is in one place. */
module ClientInvariant {
  import WaitSlots
  import SlotLifecycle
  import SlotTheorems
  import Arith
  import opened Jobs
  import opened ClientMachine

  /** Jobs past their increment and not past their decrement. */
  function Outstanding(jobs: seq<Job>): (n: nat)
    ensures n <= |jobs|
  {
    if jobs == [] then 0
    else Outstanding(jobs[..|jobs| - 1]) + if jobs[|jobs| - 1].state == Done then 0 else 1
  }

  lemma {:induction false} NoneOutstanding(jobs: seq<Job>)
    ensures Outstanding(jobs) == 0 <==> forall j: nat | j < |jobs| :: jobs[j].state == Done
  {
    if jobs != [] {
      NoneOutstanding(jobs[..|jobs| - 1]);
    }
  }

  lemma OneMore(jobs: seq<Job>, job: Job)
    requires job.state != Done
    ensures Outstanding(jobs + [job]) == Outstanding(jobs) + 1
  {
    assert (jobs + [job])[..|jobs|] == jobs;
  }

  lemma {:induction false} OutstandingMoves(jobs: seq<Job>, j: nat, st: JobState)
    requires j < |jobs| && jobs[j].state != Done
    ensures Outstanding(jobs[j := jobs[j].(state := st)]) == Outstanding(jobs) - if st == Done then 1 else 0
  {
    var n, moved := |jobs| - 1, jobs[j := jobs[j].(state := st)];
    if j < n {
      OutstandingMoves(jobs[..n], j, st);
      assert moved[..n] == jobs[..n][j := jobs[j].(state := st)];
    } else {
      assert moved[..n] == jobs[..n];
    }
  }

  /** Arming m waits for t and was made when at least `since` jobs had been counted. */
  ghost predicate ArmedFor(s: State, m: nat, t: nat, since: nat) {
    m < |s.ctr.arms| && m < |s.before| && s.ctr.arms[m].req.target == t && since <= s.before[m]
  }

  ghost predicate WaitOk(s: State, f: nat, t: nat, since: nat)
    requires f < |s.ctr.fibers|
  {
    match s.ctr.fibers[f]
    case Acquire(_, req) => req.target == t
    case Fill(_, req) => req.target == t
    case Arming(_, req) => req.target == t
    case Recheck(_, m) => ArmedFor(s, m, t, since)
    case TestUse(_, m, _) => ArmedFor(s, m, t, since)
    case TestTarget(_, m, _) => ArmedFor(s, m, t, since)
    case Cancel(_, m, _) => ArmedFor(s, m, t, since)
    case Unslot(_, _, m) => ArmedFor(s, m, t, since)
    case Answer(m, _) => ArmedFor(s, m, t, since)
    case SlotsFull => true
    case _ => false
  }

  predicate JobIs(s: State, j: nat, st: JobState) {
    j < |s.jobs| && s.jobs[j].state == st
  }

  predicate Made(s: State, j: nat, f: nat, pc: nat) {
    j < |s.jobs| && s.jobs[j].maker == f && s.jobs[j].op == pc
  }

  predicate Scans(l: WaitSlots.Local) {
    l == WaitSlots.Away || WaitSlots.Scanning(l)
  }

  ghost predicate ProcOk(s: State, f: nat)
    requires Shaped(s) && f < |s.procs|
  {
    var l := s.ctr.fibers[f];
    match s.procs[f]
    case Client(_, _) => l == WaitSlots.Away
    case Counting(_, pc, j) => Scans(l) && JobIs(s, j, Counted(f)) && Made(s, j, f, pc)
    case Offering(_, pc, j) => l == WaitSlots.Away && JobIs(s, j, Counted(f)) && Made(s, j, f, pc)
    case Waiting(script, pc, since) =>
      pc < |script| && script[pc].Wait? && since <= |s.jobs| && WaitOk(s, f, script[pc].target, since)
    case Asleep(script, pc, since, m) =>
      pc < |script| && script[pc].Wait? && since <= |s.jobs| && l == WaitSlots.Away
      && ArmedFor(s, m, script[pc].target, since)
    case Threw(_, _) => l == WaitSlots.Away
    case Idle => l == WaitSlots.Away
    case Holding(j) => l == WaitSlots.Away && JobIs(s, j, HeldBy(f))
    case InBody(j) => l == WaitSlots.Away && JobIs(s, j, RunBy(f))
    case BodyDone(j) => l == WaitSlots.Away && JobIs(s, j, RanBy(f))
    case Dropping(j) => Scans(l) && JobIs(s, j, Done)
  }

  /** The fiber that has the job in hand. */
  predicate Works(p: Proc, j: nat) {
    match p
    case Counting(_, _, i) => i == j
    case Offering(_, _, i) => i == j
    case Holding(i) => i == j
    case InBody(i) => i == j
    case BodyDone(i) => i == j
    case _ => false
  }

  ghost predicate JobOk(s: State, j: nat)
    requires Shaped(s) && j < |s.jobs|
  {
    && s.jobs[j].maker < |s.procs|
    && match s.jobs[j].state
       case Counted(f) => f < |s.procs| && Works(s.procs[f], j)
       case HeldBy(f) => f < |s.procs| && Works(s.procs[f], j)
       case RunBy(f) => f < |s.procs| && Works(s.procs[f], j)
       case RanBy(f) => f < |s.procs| && Works(s.procs[f], j)
       case _ => true
  }

  ghost predicate BeforeOk(s: State) {
    |s.before| == |s.ctr.arms| && forall m: nat | m < |s.before| :: s.before[m] <= |s.jobs|
  }

  ghost predicate Conserved(s: State) {
    s.ctr.value == Outstanding(s.jobs) % 0x1_0000_0000
  }

  ghost predicate Inv(s: State) {
    && Shaped(s) && SlotLifecycle.Inv(s.ctr) && BeforeOk(s) && Conserved(s)
    && (forall f: nat | f < |s.procs| :: ProcOk(s, f))
    && (forall j: nat | j < |s.jobs| :: JobOk(s, j))
  }

  lemma InitInv(slots: nat, scripts: seq<seq<Op>>, workers: nat)
    ensures Inv(Init(slots, scripts, workers))
  {
    SlotLifecycle.InitInv(slots, |scripts| + workers);
  }

  // ---- What a step may change

  /** Whether fiber f may take job state st further. */
  predicate MayMove(st: JobState, f: nat) {
    match st
    case Counted(g) => g == f
    case Queued => true
    case HeldBy(g) => g == f
    case RunBy(g) => g == f
    case RanBy(g) => g == f
    case Done => false
    case Lost => false
  }

  /** The counter's history goes on, and f alone moves there. */
  ghost predicate CounterGoesOn(s: State, r: State, f: nat) {
    && |r.ctr.fibers| == |s.ctr.fibers| && s.ctr.arms <= r.ctr.arms && s.before <= r.before
    && |r.before| == |r.ctr.arms| && |s.before| == |s.ctr.arms|
    && (forall g: nat | g < |s.ctr.fibers| && g != f :: r.ctr.fibers[g] == s.ctr.fibers[g])
  }

  /** f moves from one proc to another, and job j at most with it. */
  ghost predicate Moves(s: State, r: State, f: nat, j: nat)
    requires Shaped(s) && Shaped(r)
  {
    && CounterGoesOn(s, r, f) && f < |s.procs| && |r.procs| == |s.procs| && r.procs == s.procs[f := r.procs[f]]
    && (|r.jobs| == |s.jobs| || (j == |s.jobs| && |r.jobs| == j + 1))
    && (forall i: nat | i < |s.jobs| && i != j :: r.jobs[i] == s.jobs[i])
    && (j < |s.jobs| && r.jobs[j] != s.jobs[j] ==>
          MayMove(s.jobs[j].state, f) && r.jobs[j] == s.jobs[j].(state := r.jobs[j].state))
    && (forall i: nat | Works(s.procs[f], i) :: i == j)
  }

  lemma OthersKept(s: State, r: State, f: nat, j: nat)
    requires Inv(s) && Shaped(r) && Moves(s, r, f, j)
    ensures forall g: nat | g < |r.procs| && g != f :: ProcOk(r, g)
    ensures forall i: nat | i < |r.jobs| && i != j :: JobOk(r, i)
  {
    forall g: nat | g < |r.procs| && g != f ensures ProcOk(r, g) { assert ProcOk(s, g); }
    forall i: nat | i < |r.jobs| && i != j ensures JobOk(r, i) { assert JobOk(s, i); }
  }

  /** A step that leaves the counter alone. */
  lemma CounterSame(s: State, r: State)
    requires Inv(s) && r.ctr == s.ctr && r.before == s.before && |s.jobs| == |r.jobs| && Conserved(r)
    ensures SlotLifecycle.Inv(r.ctr) && BeforeOk(r)
  {
  }

  lemma ArmsByOne(c: WaitSlots.Counter, f: nat, a: WaitSlots.Action)
    requires WaitSlots.Shaped(c)
    ensures |WaitSlots.Step(c, f, a).arms| <= |c.arms| + 1
  {
  }

  /** What a step on the counter keeps. */
  lemma OnCounterFacts(s: State, f: nat, a: WaitSlots.Action)
    requires Inv(s) && f < |s.procs|
    ensures var r := OnCounter(s, f, a);
            && r.ctr == WaitSlots.Step(s.ctr, f, a) && SlotLifecycle.Inv(r.ctr) && CounterGoesOn(s, r, f) && BeforeOk(r)
            && (a.Add? || r.ctr.value == s.ctr.value)
  {
    SlotLifecycle.StepKeepsInv(s.ctr, f, a);
    SlotTheorems.ArmsOnlyGrow(s.ctr, f, a);
    ArmsByOne(s.ctr, f, a);
    forall g: nat | g < |s.ctr.fibers| && g != f ensures OnCounter(s, f, a).ctr.fibers[g] == s.ctr.fibers[g] {
      SlotTheorems.OthersUnmoved(s.ctr, f, a, g);
    }
    if !a.Add? { ValueStays(s.ctr, f, a); }
  }

  lemma ValueStays(c: WaitSlots.Counter, f: nat, a: WaitSlots.Action)
    requires WaitSlots.Shaped(c) && !a.Add?
    ensures WaitSlots.Step(c, f, a).value == c.value
  {
  }

  // ---- The fiber's own part of each step

  lemma StillConserved(s: State, r: State, d: int)
    requires Conserved(s) && r.ctr.value == WaitSlots.Wrapped(s.ctr.value + d)
    requires Outstanding(r.jobs) == Outstanding(s.jobs) + d
    ensures Conserved(r)
  {
    WrapsOn(Outstanding(s.jobs), d);
    assert WaitSlots.RANGE == 0x1_0000_0000;
    hide Outstanding;
  }

  lemma WrapsOn(n: nat, d: int)
    ensures WaitSlots.Wrapped(n % WaitSlots.RANGE + d) == (n + d) % WaitSlots.RANGE
  {
    Arith.AddMultiple(n % WaitSlots.RANGE + d, WaitSlots.RANGE, n / WaitSlots.RANGE);
    assert n % WaitSlots.RANGE + d + n / WaitSlots.RANGE * WaitSlots.RANGE == n + d;
  }

  lemma AddLands(c: WaitSlots.Counter, f: nat, n: int)
    requires WaitSlots.Shaped(c) && f < |c.fibers| && c.fibers[f] == WaitSlots.Away
    ensures var r := WaitSlots.Step(c, f, WaitSlots.Add(n));
            f < |r.fibers| && Scans(r.fibers[f]) && r.value == WaitSlots.Wrapped(c.value + n)
  {
  }

  lemma SchedStep(s: State, f: nat, script: seq<Op>, pc: nat)
    requires Inv(s) && f < |s.procs| && s.procs[f] == Client(script, pc) && pc < |script|
    requires script[pc].Sched? && !script[pc].prio.Unknown?
    ensures Inv(BeginOp(s, f, script, pc))
  {
    hide WaitSlots.Step, WaitSlots.Wrapped, Conserved;
    assert ProcOk(s, f);
    var r := BeginOp(s, f, script, pc);
    OnCounterFacts(s, f, WaitSlots.Add(1));
    OneMore(s.jobs, Job(script[pc].id, f, pc, Counted(f)));
    AddLands(s.ctr, f, 1);
    StillConserved(s, r, 1);
    OthersKept(s, r, f, |s.jobs|);
  }

  lemma CountDownMoves(s: State, f: nat, j: nat)
    requires Inv(s) && f < |s.procs| && s.procs[f] == BodyDone(j)
    ensures var r := Step(s, f, Go);
            && Shaped(r) && Moves(s, r, f, j) && BeforeOk(r) && SlotLifecycle.Inv(r.ctr)
            && j < |s.jobs| == |r.jobs| && s.jobs[j].state != Done && r.procs[f] == Dropping(j)
            && r.jobs == s.jobs[j := s.jobs[j].(state := Done)] && r.ctr == WaitSlots.Step(s.ctr, f, WaitSlots.Add(-1))
            && ProcOk(r, f) && JobOk(r, j)
  {
    hide WaitSlots.Step, Conserved;
    assert ProcOk(s, f) && JobOk(s, j);
    OnCounterFacts(s, f, WaitSlots.Add(-1));
    AddLands(s.ctr, f, -1);
  }

  lemma CountDownStep(s: State, f: nat, j: nat)
    requires Inv(s) && f < |s.procs| && s.procs[f] == BodyDone(j)
    ensures Inv(Step(s, f, Go))
  {
    assert ProcOk(s, f);
    CountDownMoves(s, f, j);
    var r := Step(s, f, Go);
    hide WaitSlots.Step, WaitSlots.Wrapped, Conserved, Step, Moves, BeforeOk, SlotLifecycle.Inv, ProcOk, JobOk;
    OutstandingMoves(s.jobs, j, Done);
    AddLands(s.ctr, f, -1);
    StillConserved(s, r, -1);
    OthersKept(s, r, f, j);
  }

  /** Going on with a scan. */
  lemma ScanStep(s: State, f: nat, j: nat)
    requires Inv(s) && f < |s.procs| && s.ctr.fibers[f] != WaitSlots.Away
    requires (s.procs[f].Counting? && s.procs[f].job == j) || s.procs[f] == Dropping(j)
    ensures Inv(OnCounter(s, f, WaitSlots.Go))
  {
    assert ProcOk(s, f);
    var r := OnCounter(s, f, WaitSlots.Go);
    OnCounterFacts(s, f, WaitSlots.Go);
    ScanGoesOn(s.ctr, f);
    OthersKept(s, r, f, j);
    if j < |s.jobs| { assert JobOk(s, j); }
  }

  lemma ScanGoesOn(c: WaitSlots.Counter, f: nat)
    requires WaitSlots.Shaped(c) && f < |c.fibers| && WaitSlots.Scanning(c.fibers[f])
    ensures var r := WaitSlots.Step(c, f, WaitSlots.Go); f < |r.fibers| && Scans(r.fibers[f])
  {
  }

  /** A step that leaves the counter alone and moves job j, not to Done. */
  lemma JobStep(s: State, r: State, f: nat, j: nat)
    requires Inv(s) && Shaped(r) && f < |s.procs| && r.ctr == s.ctr && r.before == s.before
    requires j < |s.jobs| == |r.jobs| && MayMove(s.jobs[j].state, f)
    requires r.jobs == s.jobs[j := s.jobs[j].(state := r.jobs[j].state)]
    requires r.jobs[j].state != Done
    requires |r.procs| == |s.procs| && r.procs == s.procs[f := r.procs[f]]
             && forall i: nat | Works(s.procs[f], i) :: i == j
    requires ProcOk(r, f) && (MayMove(r.jobs[j].state, f) && r.jobs[j].state != Queued ==> Works(r.procs[f], j))
    requires MayMove(r.jobs[j].state, f) || r.jobs[j].state == Lost
    ensures Inv(r)
  {
    assert JobOk(s, j);
    OutstandingMoves(s.jobs, j, r.jobs[j].state);
    CounterSame(s, r);
    OthersKept(s, r, f, j);
  }

  /** A step that moves the fiber alone. */
  lemma ProcStep(s: State, f: nat, p: Proc)
    requires Inv(s) && f < |s.procs| && ProcOk(Set(s, f, p), f)
    requires forall i: nat :: Works(s.procs[f], i) <==> Works(p, i)
    ensures Inv(Set(s, f, p))
  {
    var r := Set(s, f, p);
    CounterSame(s, r);
    forall g: nat | g < |r.procs| && g != f ensures ProcOk(r, g) { assert ProcOk(s, g); }
    forall i: nat | i < |r.jobs| ensures JobOk(r, i) { assert JobOk(s, i); }
  }

  /** A step on the counter that belongs to a wait. */
  lemma WaitStep(s: State, f: nat, a: WaitSlots.Action, p: Proc)
    requires Inv(s) && f < |s.procs| && !a.Add?
    requires forall i: nat :: !Works(s.procs[f], i) && !Works(p, i)
    requires ProcOk(Set(OnCounter(s, f, a), f, p), f)
    ensures Inv(Set(OnCounter(s, f, a), f, p))
  {
    var r := Set(OnCounter(s, f, a), f, p);
    OnCounterFacts(s, f, a);
    OthersKept(s, r, f, |s.jobs|);
  }

  /** AddWaitingFiber stays about the same target, and arms with all jobs so far counted before. */
  lemma WaiterGoesOn(s: State, f: nat, t: nat, since: nat)
    requires Inv(s) && f < |s.procs| && WaitOk(s, f, t, since) && since <= |s.jobs|
    requires !s.ctr.fibers[f].Answer? && s.ctr.fibers[f] != WaitSlots.SlotsFull
    ensures WaitOk(OnCounter(s, f, WaitSlots.Go), f, t, since)
  {
    OnCounterFacts(s, f, WaitSlots.Go);
    assert SlotLifecycle.FiberOk(s.ctr, f);
    hide Inv;
  }

  lemma WaitingKeepsInv(s: State, f: nat, script: seq<Op>, pc: nat, since: nat)
    requires Inv(s) && f < |s.procs| && s.procs[f] == Waiting(script, pc, since)
    ensures Inv(WaitingStep(s, f, script, pc, since))
  {
    assert ProcOk(s, f);
    var l := s.ctr.fibers[f];
    if l.Answer? || l == WaitSlots.SlotsFull {
      OnCounterFacts(s, f, WaitSlots.Leave);
      if l.Answer? && l.done { WaitStep(s, f, WaitSlots.Leave, Client(script, pc + 1)); }
      if l.Answer? && !l.done { WaitStep(s, f, WaitSlots.Leave, Asleep(script, pc, since, l.own)); }
      if l == WaitSlots.SlotsFull { WaitStep(s, f, WaitSlots.Leave, Threw(script, pc)); }
    } else {
      WaiterGoesOn(s, f, script[pc].target, since);
      var r := OnCounter(s, f, WaitSlots.Go);
      assert r == Set(r, f, s.procs[f]);
      WaitStep(s, f, WaitSlots.Go, s.procs[f]);
    }
  }

  lemma BeginKeepsInv(s: State, f: nat, script: seq<Op>, pc: nat)
    requires Inv(s) && f < |s.procs| && s.procs[f] == Client(script, pc)
    ensures Inv(BeginOp(s, f, script, pc))
  {
    assert ProcOk(s, f);
    if pc < |script| {
      match script[pc] {
        case Sched(prio, id) =>
          if GetQueueByPriority(prio) == NoQueue { ProcStep(s, f, Client(script, pc + 1)); }
          else { SchedStep(s, f, script, pc); }
        case Wait(target) =>
          if s.ctr.value == target {
            ProcStep(s, f, Client(script, pc + 1));
          } else {
            var a := WaitSlots.Register(WaitSlots.Request(f, 0, target));
            OnCounterFacts(s, f, a);
            WaitStep(s, f, a, Waiting(script, pc, |s.jobs|));
          }
      }
    }
  }

  lemma WorkerKeepsInv(s: State, f: nat, a: Action)
    requires Inv(s) && f < |s.procs|
    requires s.procs[f].Idle? || s.procs[f].Holding? || s.procs[f].InBody?
    ensures Inv(Step(s, f, a))
  {
    assert ProcOk(s, f);
    var r := Step(s, f, a);
    match (s.procs[f], a) {
      case (Idle, Take(j)) => if j < |s.jobs| && s.jobs[j].state == Queued { JobStep(s, r, f, j); }
      case (Holding(j), Go) => JobStep(s, r, f, j);
      case (InBody(j), Go) => JobStep(s, r, f, j);
      case _ =>
    }
  }

  lemma OfferKeepsInv(s: State, f: nat, script: seq<Op>, pc: nat, j: nat, a: Action)
    requires Inv(s) && f < |s.procs| && s.procs[f] == Offering(script, pc, j) && (a == Go || a == Fail)
    ensures Inv(Step(s, f, a))
  {
    assert ProcOk(s, f);
    JobStep(s, Step(s, f, a), f, j);
  }

  /** Every step keeps the invariant; no hypothesis about reuse or stale scans is needed here. */
  lemma StepKeepsInv(s: State, f: nat, a: Action)
    requires Inv(s)
    ensures Inv(Step(s, f, a))
  {
    if f < |s.procs| {
      assert ProcOk(s, f);
      match (s.procs[f], a) {
        case (Client(script, pc), Go) => BeginKeepsInv(s, f, script, pc);
        case (Counting(script, pc, j), Go) =>
          if s.ctr.fibers[f] == WaitSlots.Away { ProcStep(s, f, Offering(script, pc, j)); } else { ScanStep(s, f, j); }
        case (Offering(script, pc, j), Go) => OfferKeepsInv(s, f, script, pc, j, a);
        case (Offering(script, pc, j), Fail) => OfferKeepsInv(s, f, script, pc, j, a);
        case (Waiting(script, pc, since), Go) => WaitingKeepsInv(s, f, script, pc, since);
        case (Asleep(script, pc, _, m), Go) =>
          if m < |s.ctr.outcome| && s.ctr.outcome[m].Woken? { ProcStep(s, f, Client(script, pc + 1)); }
        case (Idle, _) => WorkerKeepsInv(s, f, a);
        case (Holding(_), _) => WorkerKeepsInv(s, f, a);
        case (InBody(_), _) => WorkerKeepsInv(s, f, a);
        case (BodyDone(j), Go) => CountDownStep(s, f, j);
        case (Dropping(j), Go) =>
          if s.ctr.fibers[f] == WaitSlots.Away { ProcStep(s, f, Idle); } else { ScanStep(s, f, j); }
        case _ =>
      }
    }
  }

  lemma {:induction false} RunKeepsInv(s: State, sched: Schedule)
    requires Inv(s)
    ensures Inv(Run(s, sched))
    decreases |sched|
  {
    assert Shaped(s);
    hide Step, Inv;
    if sched != [] {
      RunKeepsInv(s, sched[..|sched| - 1]);
      StepKeepsInv(Run(s, sched[..|sched| - 1]), sched[|sched| - 1].0, sched[|sched| - 1].1);
    }
  }

  lemma InvConserved(s: State)
    requires Inv(s)
    ensures Conserved(s)
  {
  }
}
