/** What happens when the clean-up after a pooled fiber is resumed uses the record of the thread that had
    pooled it: two threads execute one fiber; an IO thread runs jobs that are not IO.  And what happens
    when a waiter is answered true by cancelling another's registration: a freed flag is read. */
module FiberHazards {
  import opened ThreadLocals
  import opened FiberMachine
  import opened FiberInvariant
  import opened FiberTheorems
  import opened FiberExact
  import opened FiberIo
  import opened Registry

  lemma ReachableStep(s: State, u: nat, a: Action)
    requires Reachable(s) && Shaped(s) && StepOk(s, u, a)
    ensures Reachable(Step(s, u, a))
  {
    hide Step, Init, StepOk;
    var fibers: nat, io: seq<bool>, sched: Schedule :| ReachedBy(s, fibers, io, sched);
    var longer := sched + [(u, a)];
    assert longer[..|longer| - 1] == sched;
    assert ReachedBy(Step(s, u, a), fibers, io, longer);
  }

  lemma ReachableInit(fibers: nat, io: seq<bool>)
    ensures Reachable(Init(fibers, io))
  {
    assert ReachedBy(Init(fibers, io), fibers, io, []);
  }

  /** Three fibers; a main thread, a worker and an IO thread. */
  const NO_TLS: Tls := Tls(false, NO_FIBER, NO_FIBER, Null, Nowhere, [])

  function WorkerTls(current: nat): Tls {
    NO_TLS.(current := current)
  }

  /** Everything idle. */
  function Start(): State {
    State([true, true, true], [Fresh, Fresh, Fresh], [NO_FIBER, NO_FIBER, NO_FIBER], [false, false, false],
          [BaseStart, BaseStart, BaseStart], [NO_TLS, NO_TLS, NO_TLS.(isIO := true)],
          [], [], [InPool, InPool, InPool], false)
  }

  lemma ToStart()
    ensures Reachable(Start())
  {
    ReachableInit(3, [false, false, true]);
    assert Init(3, [false, false, true]) == Start();
  }

  /** The worker runs a job on fiber 1. */
  function WorkerRuns(): State {
    Start().(idle := [true, false, true], stage := [Fresh, Job, Fresh], returnTo := [NO_FIBER, 1, NO_FIBER],
            exec := [BaseStart, Running(1), BaseStart], tls := [NO_TLS, WorkerTls(1), NO_TLS.(isIO := true)],
            place := [InPool, RunsOn(1), InPool])
  }

  lemma ToWorkerRuns()
    requires Reachable(Start())
    ensures Reachable(WorkerRuns())
  {
    hide Reachable;
    var s := Start();
    ReachableStep(s, 1, Claim(1));
    s := Step(s, 1, Claim(1));
    ReachableStep(s, 1, Next);
    s := Step(s, 1, Next);
    ReachableStep(s, 1, Next);
    s := Step(s, 1, Next);
    ReachableStep(s, 1, GetJob);
    s := Step(s, 1, GetJob);
    assert s == WorkerRuns();
  }

  /** It waits, and its registration is armed. */
  function WorkerDeclined(): State {
    WorkerRuns().(stage := [Fresh, Declined(0, 0), Fresh], flags := [FlagState(1, true, false)],
                  regs := [Registration(1, 0, Open)])
  }

  lemma ToWorkerDeclined()
    requires Reachable(WorkerRuns())
    ensures Reachable(WorkerDeclined())
  {
    hide Reachable;
    var s := WorkerRuns();
    ReachableStep(s, 1, Wait);
    s := Step(s, 1, Wait);
    ReachableStep(s, 1, Action.Register);
    s := Step(s, 1, Action.Register);
    ReachableStep(s, 1, Decline);
    s := Step(s, 1, Decline);
    assert s == WorkerDeclined();
  }

  /** It has left its thread's record ready and acquired fiber 2. */
  function WorkerClaims(): State {
    WorkerDeclined().(idle := [true, false, false], stage := [Fresh, WaitSwitch(0, 0, 2), Fresh],
                      tls := [NO_TLS, Tls(false, 2, 1, Flag(0), Waiting, []), NO_TLS.(isIO := true)],
                      place := [InPool, RunsOn(1), ClaimedBy(1)])
  }

  lemma ToWorkerClaims()
    requires Reachable(WorkerDeclined())
    ensures Reachable(WorkerClaims())
  {
    hide Reachable;
    var s := WorkerDeclined();
    ReachableStep(s, 1, Next);
    s := Step(s, 1, Next);
    ReachableStep(s, 1, Claim(2));
    s := Step(s, 1, Claim(2));
    assert s == WorkerClaims();
  }

  /** The worker has left it for fiber 2. */
  function WorkerWaits(): State {
    State([true, false, false], [Fresh, WaitResume(0, 0), Loop], [NO_FIBER, 1, 1], [false, false, false],
          [BaseStart, Running(2), BaseStart], [NO_TLS, WorkerTls(2), NO_TLS.(isIO := true)],
          [FlagState(1, true, true)], [Registration(1, 0, Open)], [InPool, Parked, RunsOn(1)], false)
  }

  /** It has just switched to fiber 2, and has fiber 1 to clean up after. */
  function WorkerSwitched(): State {
    WorkerClaims().(stage := [Fresh, WaitResume(0, 0), Fresh], returnTo := [NO_FIBER, 1, 1],
                  exec := [BaseStart, Running(2), BaseStart], place := [InPool, TransitOn(1), RunsOn(1)])
  }

  lemma ToWorkerSwitched()
    requires Reachable(WorkerClaims())
    ensures Reachable(WorkerSwitched())
  {
    hide Reachable;
    var s := WorkerClaims();
    ReachableStep(s, 1, Next);
    s := Step(s, 1, Next);
    assert s == WorkerSwitched();
  }

  lemma ToWorkerWaits()
    requires Reachable(WorkerSwitched())
    ensures Reachable(WorkerWaits())
  {
    hide Reachable;
    var s := WorkerSwitched();
    ReachableStep(s, 1, Next);
    s := Step(s, 1, Next);
    ReachableStep(s, 1, Next);
    s := Step(s, 1, Next);
    ReachableStep(s, 1, Next);
    s := Step(s, 1, Next);
    ReachableStep(s, 1, Next);
    s := Step(s, 1, Next);
    assert s == WorkerWaits();
  }

  /** A job on fiber 2 has woken fiber 1. */
  function WorkerWoken(): State {
    WorkerWaits().(tls := [NO_TLS, WorkerTls(2).(ready := [Entry(1, 0, 0)]), NO_TLS.(isIO := true)],
                  regs := [Registration(1, 0, Woken)])
  }

  lemma ToWorkerWoken()
    requires Reachable(WorkerWaits())
    ensures Reachable(WorkerWoken())
  {
    hide Reachable;
    var s := WorkerWaits();
    ReachableStep(s, 1, GetJob);
    s := Step(s, 1, GetJob);
    ReachableStep(s, 1, Wake(0));
    s := Step(s, 1, Wake(0));
    ReachableStep(s, 1, Finish);
    s := Step(s, 1, Finish);
    assert [] + [Entry(1, 0, 0)] == [Entry(1, 0, 0)];
    assert s == WorkerWoken();
  }

  /** Fiber 2 is in the pool. */
  function WorkerPools(): State {
    State([true, false, true], [Fresh, Job, PoolResume(1)], [NO_FIBER, 1, 1], [false, false, false],
          [BaseStart, Running(1), BaseStart], [NO_TLS, WorkerTls(1), NO_TLS.(isIO := true)],
          [FlagState(1, false, true)], [Registration(1, 0, Woken)], [InPool, RunsOn(1), InPool], false)
  }

  /** Fiber 2 has given the worker back to fiber 1, which has fiber 2 to clean up after. */
  function WorkerResumes(): State {
    State([true, false, false], [Fresh, WaitResume(0, 0), PoolResume(1)], [NO_FIBER, 1, 1], [false, false, false],
          [BaseStart, Running(1), BaseStart], [NO_TLS, Tls(false, 1, 2, Null, Pool, []), NO_TLS.(isIO := true)],
          [FlagState(1, false, true)], [Registration(1, 0, Woken)], [InPool, RunsOn(1), TransitOn(1)], false)
  }

  lemma ToWorkerResumes()
    requires Reachable(WorkerWoken())
    ensures Reachable(WorkerResumes())
  {
    hide Reachable;
    var s := WorkerWoken();
    ReachableStep(s, 1, Next);
    s := Step(s, 1, Next);
    ReachableStep(s, 1, Next);
    s := Step(s, 1, Next);
    ReachableStep(s, 1, Next);
    s := Step(s, 1, Next);
    assert WorkerWoken().tls[1].ready[..0] + WorkerWoken().tls[1].ready[1..] == [];
    assert s == WorkerResumes();
  }

  /** It has loaded what to hand over. */
  function WorkerHandsOver(): State {
    WorkerResumes().(stage := [Fresh, CleanStore(1, Pool, 2, Null, ToJob), PoolResume(1)])
  }

  lemma ToWorkerHandsOver()
    requires Reachable(WorkerResumes())
    ensures Reachable(WorkerHandsOver())
  {
    hide Reachable;
    var s := WorkerResumes();
    ReachableStep(s, 1, Next);
    s := Step(s, 1, Next);
    ReachableStep(s, 1, Next);
    s := Step(s, 1, Next);
    assert s == WorkerHandsOver();
  }

  lemma ToWorkerPools()
    requires Reachable(WorkerHandsOver())
    ensures Reachable(WorkerPools())
  {
    hide Reachable;
    var s := WorkerHandsOver();
    ReachableStep(s, 1, Next);
    s := Step(s, 1, Next);
    ReachableStep(s, 1, Next);
    s := Step(s, 1, Next);
    assert s == WorkerPools();
  }

  // ---- A fiber executed twice

  /** Fiber 1 waits again and is about to leave the worker. */
  function WorkerLeaves(): State {
    WorkerPools().(
      stage := [Fresh, Leaving(1, 1), PoolResume(1)],
      tls := [NO_TLS, Tls(false, 1, 1, Flag(1), Waiting, []), NO_TLS.(isIO := true)],
      flags := [FlagState(1, false, true), FlagState(1, true, false)],
      regs := [Registration(1, 0, Woken), Registration(1, 1, Open)])
  }

  /** It has armed a slot. */
  function WorkerArmed(): State {
    WorkerPools().(stage := [Fresh, Registered(1, 1), PoolResume(1)],
                  flags := [FlagState(1, false, true), FlagState(1, true, false)],
                  regs := [Registration(1, 0, Woken), Registration(1, 1, Open)])
  }

  lemma ToWorkerArmed()
    requires Reachable(WorkerPools())
    ensures Reachable(WorkerArmed())
  {
    hide Reachable;
    var s := WorkerPools();
    ReachableStep(s, 1, Wait);
    s := Step(s, 1, Wait);
    ReachableStep(s, 1, Action.Register);
    s := Step(s, 1, Action.Register);
    assert s == WorkerArmed();
  }

  lemma ToWorkerLeaves()
    requires Reachable(WorkerArmed())
    ensures Reachable(WorkerLeaves())
  {
    hide Reachable;
    var s := WorkerArmed();
    ReachableStep(s, 1, Decline);
    s := Step(s, 1, Decline);
    ReachableStep(s, 1, Next);
    s := Step(s, 1, Next);
    assert s == WorkerLeaves();
  }

  /** The main callback, on fiber 0, has woken fiber 1. */
  function MainWakes(): State {
    WorkerLeaves().(
      idle := [false, false, true], stage := [Job, Leaving(1, 1), PoolResume(1)], returnTo := [0, 1, 1],
      isMain := [true, false, false], exec := [Running(0), Running(1), BaseStart],
      tls := [Tls(false, 0, NO_FIBER, Null, Nowhere, [Entry(1, 1, 1)]), Tls(false, 1, 1, Flag(1), Waiting, []),
              NO_TLS.(isIO := true)],
      regs := [Registration(1, 0, Woken), Registration(1, 1, Woken)], place := [RunsOn(0), RunsOn(1), InPool])
  }

  /** The main callback runs on fiber 0. */
  function MainRuns(): State {
    WorkerLeaves().(idle := [false, false, true], stage := [Job, Leaving(1, 1), PoolResume(1)], returnTo := [0, 1, 1],
                   isMain := [true, false, false], exec := [Running(0), Running(1), BaseStart],
                   tls := [WorkerTls(0), Tls(false, 1, 1, Flag(1), Waiting, []), NO_TLS.(isIO := true)],
                   place := [RunsOn(0), RunsOn(1), InPool])
  }

  lemma ToMainRuns()
    requires Reachable(WorkerLeaves())
    ensures Reachable(MainRuns())
  {
    hide Reachable;
    var s := WorkerLeaves();
    ReachableStep(s, 0, Claim(0));
    s := Step(s, 0, Claim(0));
    ReachableStep(s, 0, Next);
    s := Step(s, 0, Next);
    ReachableStep(s, 0, Next);
    s := Step(s, 0, Next);
    assert s == MainRuns();
  }

  lemma ToMainWakes()
    requires Reachable(MainRuns())
    ensures Reachable(MainWakes())
  {
    hide Reachable;
    var s := MainRuns();
    ReachableStep(s, 0, Wake(1));
    s := Step(s, 0, Wake(1));
    assert [] + [Entry(1, 1, 1)] == [Entry(1, 1, 1)];
    assert s == MainWakes();
  }

  /** It waits too, and is about to leave the main thread. */
  function MainLeaves(): State {
    MainWakes().(
      stage := [Leaving(2, 2), Leaving(1, 1), PoolResume(1)],
      tls := [Tls(false, 0, 0, Flag(2), Waiting, [Entry(1, 1, 1)]), Tls(false, 1, 1, Flag(1), Waiting, []),
              NO_TLS.(isIO := true)],
      flags := [FlagState(1, false, true), FlagState(1, true, false), FlagState(0, true, false)],
      regs := [Registration(1, 0, Woken), Registration(1, 1, Woken), Registration(0, 2, Open)])
  }

  /** It has armed a slot too. */
  function MainArmed(): State {
    MainWakes().(stage := [Registered(2, 2), Leaving(1, 1), PoolResume(1)],
                flags := [FlagState(1, false, true), FlagState(1, true, false), FlagState(0, true, false)],
                regs := [Registration(1, 0, Woken), Registration(1, 1, Woken), Registration(0, 2, Open)])
  }

  lemma ToMainArmed()
    requires Reachable(MainWakes())
    ensures Reachable(MainArmed())
  {
    hide Reachable;
    var s := MainWakes();
    ReachableStep(s, 0, Wait);
    s := Step(s, 0, Wait);
    ReachableStep(s, 0, Action.Register);
    s := Step(s, 0, Action.Register);
    assert s == MainArmed();
  }

  lemma ToMainLeaves()
    requires Reachable(MainArmed())
    ensures Reachable(MainLeaves())
  {
    hide Reachable;
    var s := MainArmed();
    ReachableStep(s, 0, Decline);
    s := Step(s, 0, Decline);
    ReachableStep(s, 0, Next);
    s := Step(s, 0, Next);
    assert s == MainLeaves();
  }

  /** The main thread has resumed fiber 2. */
  function MainResumes(): State {
    MainLeaves().(
      idle := [false, false, false], stage := [WaitResume(2, 2), Leaving(1, 1), PoolResume(1)], returnTo := [0, 1, 0],
      exec := [Running(2), Running(1), BaseStart],
      tls := [Tls(false, 2, 0, Flag(2), Waiting, [Entry(1, 1, 1)]), Tls(false, 1, 1, Flag(1), Waiting, []),
              NO_TLS.(isIO := true)],
      place := [TransitOn(0), RunsOn(1), RunsOn(0)])
  }

  lemma ToMainResumes()
    requires Reachable(MainLeaves())
    ensures Reachable(MainResumes())
  {
    hide Reachable;
    var s := MainLeaves();
    ReachableStep(s, 0, Claim(2));
    s := Step(s, 0, Claim(2));
    ReachableStep(s, 0, Next);
    s := Step(s, 0, Next);
    assert s == MainResumes();
  }

  /** Fiber 2 has used the worker's record and gone on to the ready list. */
  function MainScans(): State {
    MainResumes().(
      stage := [WaitResume(2, 2), Leaving(1, 1), Scanning(0)],
      tls := [Tls(false, 2, 0, Flag(2), Waiting, [Entry(1, 1, 1)]), WorkerTls(1), NO_TLS.(isIO := true)],
      flags := [FlagState(1, false, true), FlagState(1, true, true), FlagState(0, true, false)],
      place := [TransitOn(0), Parked, RunsOn(0)])
  }

  /** Reached without a wrong record, but its next step, by which a resumed fiber 2 on the main thread begins
      its clean-up, is about the worker's: fiber 1 counts as stored while the worker still executes it, and
      after seven more steps both threads execute fiber 1. */
  lemma ForeignRecordRunsFiberTwice() returns (s: State, after: Schedule)
    ensures Reachable(s) && Shaped(s) && |s.exec| == 3 && |s.stage| == 3
    ensures s.exec[0] == Running(2) && s.stage[2] == PoolResume(1) && !StepOk(s, 0, Next)
    ensures |after| == 8 && after[0] == (0, Next)
    ensures var r := Run(s, after); |r.exec| == 3 && r.exec[0] == Running(1) && r.exec[1] == Running(1)
  {
    s := MainResumes();
    assert !StepOk(s, 0, Next);
    ToMainResumesFromStart();
    after := MainGoesWrong();
    hide Step, Reachable, StepOk, Run;
  }

  lemma ThenOne(s: State, sched: Schedule, u: nat, a: Action)
    requires Shaped(s)
    ensures Run(s, sched + [(u, a)]) == Step(Run(s, sched), u, a)
  {
    assert (sched + [(u, a)])[..|sched|] == sched;
  }

  /** Fiber 2 has used the worker's record and is in the rest of GetNextJob. */
  function MainTail(): State {
    MainScans().(stage := [WaitResume(2, 2), Leaving(1, 1), Tail])
  }

  /** Fiber 2 is about to set the flag of fiber 1. */
  function MainStores(): State {
    MainResumes().(stage := [WaitResume(2, 2), Leaving(1, 1), CleanStore(1, Waiting, 1, Flag(1), ToTail)])
  }

  lemma MainLoads()
    ensures Step(Step(MainResumes(), 0, Next), 0, Next) == MainStores()
  {
  }

  lemma MainCleansUp()
    ensures Step(Step(MainStores(), 0, Next), 0, Next) == MainTail()
  {
  }

  lemma MainScansReached()
    ensures Step(Step(MainTail(), 0, NoJob), 0, Next) == MainScans()
  {
  }

  lemma MainTakesFiberOne()
    ensures var r := Step(Step(MainScans(), 0, Next), 0, Next);
            |r.exec| == 3 && r.exec[0] == Running(1) && r.exec[1] == Running(1)
  {
  }

  lemma MainGoesWrong() returns (after: Schedule)
    ensures |after| == 8 && after[0] == (0, Next)
    ensures var r := Run(MainResumes(), after); |r.exec| == 3 && r.exec[0] == Running(1) && r.exec[1] == Running(1)
  {
    var s := MainResumes();
    MainLoads();
    MainCleansUp();
    MainScansReached();
    MainTakesFiberOne();
    assert Run(s, []) == s;
    hide Step, Run, MainResumes, MainStores, MainTail, MainScans;
    after := [];
    ThenOne(s, after, 0, Next); after := after + [(0, Next)];
    ThenOne(s, after, 0, Next); after := after + [(0, Next)];
    ThenOne(s, after, 0, Next); after := after + [(0, Next)];
    ThenOne(s, after, 0, Next); after := after + [(0, Next)];
    ThenOne(s, after, 0, NoJob); after := after + [(0, NoJob)];
    ThenOne(s, after, 0, Next); after := after + [(0, Next)];
    ThenOne(s, after, 0, Next); after := after + [(0, Next)];
    ThenOne(s, after, 0, Next); after := after + [(0, Next)];
  }

  lemma ToWorkerPoolsFromStart()
    ensures Reachable(WorkerPools())
  {
    hide *;
    ToStart();
    ToWorkerRuns();
    ToWorkerDeclined();
    ToWorkerClaims();
    ToWorkerSwitched();
    ToWorkerWaits();
    ToWorkerWoken();
    ToWorkerResumes();
    ToWorkerHandsOver();
    ToWorkerPools();
  }

  lemma ToMainResumesFromStart()
    ensures Reachable(MainResumes())
  {
    hide *;
    ToWorkerPoolsFromStart();
    ToWorkerArmed();
    ToWorkerLeaves();
    ToMainRuns();
    ToMainWakes();
    ToMainArmed();
    ToMainLeaves();
    ToMainResumes();
  }

  // ---- An IO thread beyond the test

  /** The IO thread runs a job on fiber 0. */
  function IoRuns(): State {
    WorkerPools().(idle := [false, false, true], stage := [Job, Job, PoolResume(1)], returnTo := [2, 1, 1],
                  exec := [BaseStart, Running(1), Running(0)],
                  tls := [NO_TLS, WorkerTls(1), Tls(true, 0, NO_FIBER, Null, Nowhere, [])],
                  place := [RunsOn(2), RunsOn(1), InPool])
  }

  lemma ToIoRuns()
    requires Reachable(WorkerPools())
    ensures Reachable(IoRuns())
  {
    hide Reachable;
    var s := WorkerPools();
    ReachableStep(s, 2, Claim(0));
    s := Step(s, 2, Claim(0));
    ReachableStep(s, 2, Next);
    s := Step(s, 2, Next);
    ReachableStep(s, 2, Next);
    s := Step(s, 2, Next);
    ReachableStep(s, 2, GetJob);
    s := Step(s, 2, GetJob);
    assert s == IoRuns();
  }

  /** The job waits, and is about to leave the IO thread. */
  function IoLeaves(): State {
    IoRuns().(stage := [Leaving(1, 1), Job, PoolResume(1)],
             tls := [NO_TLS, WorkerTls(1), Tls(true, 0, 0, Flag(1), Waiting, [])],
             flags := [FlagState(1, false, true), FlagState(0, true, false)],
             regs := [Registration(1, 0, Woken), Registration(0, 1, Open)])
  }

  /** Its job has armed a slot. */
  function IoArmed(): State {
    IoRuns().(stage := [Registered(1, 1), Job, PoolResume(1)],
             flags := [FlagState(1, false, true), FlagState(0, true, false)],
             regs := [Registration(1, 0, Woken), Registration(0, 1, Open)])
  }

  lemma ToIoArmed()
    requires Reachable(IoRuns())
    ensures Reachable(IoArmed())
  {
    hide Reachable;
    var s := IoRuns();
    ReachableStep(s, 2, Wait);
    s := Step(s, 2, Wait);
    ReachableStep(s, 2, Action.Register);
    s := Step(s, 2, Action.Register);
    assert s == IoArmed();
  }

  lemma ToIoLeaves()
    requires Reachable(IoArmed())
    ensures Reachable(IoLeaves())
  {
    hide Reachable;
    var s := IoArmed();
    ReachableStep(s, 2, Decline);
    s := Step(s, 2, Decline);
    ReachableStep(s, 2, Next);
    s := Step(s, 2, Next);
    assert s == IoLeaves();
  }

  /** The IO thread has resumed fiber 2. */
  function IoResumes(): State {
    IoLeaves().(idle := [false, false, false], stage := [WaitResume(1, 1), Job, PoolResume(1)], returnTo := [2, 1, 2],
               exec := [BaseStart, Running(1), Running(2)],
               tls := [NO_TLS, WorkerTls(1), Tls(true, 2, 0, Flag(1), Waiting, [])],
               place := [TransitOn(2), RunsOn(1), RunsOn(2)])
  }

  lemma ToIoResumes()
    requires Reachable(IoLeaves())
    ensures Reachable(IoResumes())
  {
    hide Reachable;
    var s := IoLeaves();
    ReachableStep(s, 2, Claim(2));
    s := Step(s, 2, Claim(2));
    ReachableStep(s, 2, Next);
    s := Step(s, 2, Next);
    assert s == IoResumes();
  }

  /** An IO thread that resumes a pooled fiber goes on to the normal and low queues, and the fiber it has
      left is never stored: its own record still names it. */
  lemma ForeignRecordTakesIoThreadBeyond() returns (s: State)
    ensures Reachable(s) && Shaped(s) && |s.exec| == 3 && |s.stage| == 3 && s.tls[2].isIO
    ensures s.exec[2] == Running(2) && !StepOk(s, 2, Next)
    ensures var r := Step(s, 2, Next);
            |r.stage| == |r.exec| == 3 && r.exec[2] == Running(2) && r.stage[2] == Tail && r.tls[2].isIO
            && r.tls[2].destination == Waiting && r.tls[2].previous == 0
            && |r.flags| == 2 && r.flags[1] == FlagState(0, true, false)
  {
    s := IoResumes();
    assert Reachable(s) by {
      hide *;
      ToWorkerPoolsFromStart();
      ToIoRuns();
      ToIoArmed();
      ToIoLeaves();
      ToIoResumes();
    }
    hide Reachable;
  }

  /** That run is one in which an IO thread gets beyond its test by its last step (FiberIo). */
  lemma IoRunIsInstance() returns (fibers: nat, io: seq<bool>, sched: Schedule)
    ensures 2 < |io| && io[2] && sched != [] && AllButLastOk(Init(fibers, io), sched)
    ensures BeyondAt(Init(fibers, io), sched, 2, |sched|)
    ensures !StepOk(Run(Init(fibers, io), sched[..|sched| - 1]), 2, Next) && sched[|sched| - 1] == (2, Next)
  {
    var s := ForeignRecordTakesIoThreadBeyond();
    var front: Schedule;
    fibers, io, front :| ReachedBy(s, fibers, io, front);
    RunKeepsThreads(Init(fibers, io), front);
    assert |io| == 3 && io[2];
    hide Init, Step, Reachable, StepsOk, StepOk;
    ThenOne(Init(fibers, io), front, 2, Next);
    sched := front + [(2, Next)];
    assert sched[..|sched| - 1] == front && sched[..|sched|] == sched;
  }

  // ---- A clean-up that comes too late

  /** The worker has left fiber 1 for fiber 0, and another thread has just started, with fiber 2. */
  function LateStarted(): State {
    WorkerLeaves().(
      idle := [false, false, false], stage := [Fresh, WaitResume(1, 1), PoolResume(1)], returnTo := [1, 1, 2],
      exec := [BaseStart, Running(0), Running(2)],
      tls := [NO_TLS, Tls(false, 0, 1, Flag(1), Waiting, []), Tls(true, 2, NO_FIBER, Null, Nowhere, [])],
      place := [RunsOn(1), TransitOn(1), RunsOn(2)])
  }

  /** Only the worker has switched so far. */
  function LateSwitched(): State {
    WorkerLeaves().(
      idle := [false, false, true], stage := [Fresh, WaitResume(1, 1), PoolResume(1)], returnTo := [1, 1, 1],
      exec := [BaseStart, Running(0), BaseStart],
      tls := [NO_TLS, Tls(false, 0, 1, Flag(1), Waiting, []), NO_TLS.(isIO := true)],
      place := [RunsOn(1), TransitOn(1), InPool])
  }

  lemma ToLateSwitched()
    requires Reachable(WorkerLeaves())
    ensures Reachable(LateSwitched())
  {
    hide Reachable;
    var s := WorkerLeaves();
    ReachableStep(s, 1, Claim(0));
    s := Step(s, 1, Claim(0));
    ReachableStep(s, 1, Next);
    s := Step(s, 1, Next);
    assert s == LateSwitched();
  }

  lemma ToLateStarted()
    requires Reachable(LateSwitched())
    ensures Reachable(LateStarted())
  {
    hide Reachable;
    var s := LateSwitched();
    ReachableStep(s, 2, Claim(2));
    s := Step(s, 2, Claim(2));
    ReachableStep(s, 2, Next);
    s := Step(s, 2, Next);
    assert s == LateStarted();
  }

  /** Fiber 2 has loaded the worker's record: it is about to set flag 1. */
  function LateRead(): State {
    LateStarted().(stage := [Fresh, WaitResume(1, 1), CleanStore(1, Waiting, 1, Flag(1), ToTail)])
  }

  /** The worker has cleaned up itself. */
  function LateCleaned(): State {
    LateRead().(stage := [Loop, WaitResume(1, 1), CleanStore(1, Waiting, 1, Flag(1), ToTail)],
               tls := [NO_TLS, WorkerTls(0), Tls(true, 2, NO_FIBER, Null, Nowhere, [])],
               flags := [FlagState(1, false, true), FlagState(1, true, true)], place := [RunsOn(1), Parked, RunsOn(2)])
  }

  /** Its job has woken fiber 1. */
  function LateWoken(): State {
    LateCleaned().(tls := [NO_TLS, WorkerTls(0).(ready := [Entry(1, 1, 1)]), Tls(true, 2, NO_FIBER, Null, Nowhere, [])],
                  regs := [Registration(1, 0, Woken), Registration(1, 1, Woken)])
  }

  /** It has taken fiber 1 from its ready list, and freed flag 1. */
  function LateFreed(): State {
    LateWoken().(stage := [PoolSwitch(1), WaitResume(1, 1), CleanStore(1, Waiting, 1, Flag(1), ToTail)],
                tls := [NO_TLS, Tls(false, 1, 0, Null, Pool, []), Tls(true, 2, NO_FIBER, Null, Nowhere, [])],
                flags := [FlagState(1, false, true), FlagState(1, false, true)],
                place := [RunsOn(1), ClaimedBy(1), RunsOn(2)])
  }

  /** Reached from LateStarted by steps of which all but fiber 2's clean-up keep the invariant. */
  ghost predicate LeadsTo(m: State) {
    exists sched: Schedule :: LeadsToBy(m, sched)
  }

  ghost predicate LeadsToBy(m: State, sched: Schedule) {
    Shaped(LateStarted()) && Meanwhile(LateStarted(), 2, 2, sched) && Run(LateStarted(), sched) == m
  }

  lemma LeadsOn(m: State, u: nat, a: Action)
    requires LeadsTo(m) && Shaped(m) && (if u == 2 then a == Next else StepOk(m, u, a))
    ensures LeadsTo(Step(m, u, a))
  {
    hide Step, StepOk, LateStarted;
    var sched: Schedule :| LeadsToBy(m, sched);
    var longer := sched + [(u, a)];
    ThenOne(LateStarted(), sched, u, a);
    assert longer[..|longer| - 1] == sched && longer[|longer| - 1] == (u, a);
    assert LeadsToBy(Step(m, u, a), longer);
  }

  lemma ToLateRead()
    requires LeadsTo(LateStarted())
    ensures LeadsTo(LateRead())
  {
    hide LeadsTo;
    var s := LateStarted();
    LeadsOn(s, 2, Next);
    s := Step(s, 2, Next);
    LeadsOn(s, 2, Next);
    s := Step(s, 2, Next);
    assert s == LateRead();
  }

  lemma ToLateCleaned()
    requires LeadsTo(LateRead())
    ensures LeadsTo(LateCleaned())
  {
    hide LeadsTo;
    var s := LateRead();
    LeadsOn(s, 1, Next);
    s := Step(s, 1, Next);
    LeadsOn(s, 1, Next);
    s := Step(s, 1, Next);
    LeadsOn(s, 1, Next);
    s := Step(s, 1, Next);
    LeadsOn(s, 1, Next);
    s := Step(s, 1, Next);
    assert s == LateCleaned();
  }

  lemma ToLateWoken()
    requires LeadsTo(LateCleaned())
    ensures LeadsTo(LateWoken())
  {
    hide LeadsTo;
    var s := LateCleaned();
    LeadsOn(s, 1, GetJob);
    s := Step(s, 1, GetJob);
    LeadsOn(s, 1, Wake(1));
    s := Step(s, 1, Wake(1));
    LeadsOn(s, 1, Finish);
    s := Step(s, 1, Finish);
    assert [] + [Entry(1, 1, 1)] == [Entry(1, 1, 1)];
    assert s == LateWoken();
  }

  lemma ToLateFreed()
    requires LeadsTo(LateWoken())
    ensures LeadsTo(LateFreed())
  {
    hide LeadsTo;
    var s := LateWoken();
    LeadsOn(s, 1, Next);
    s := Step(s, 1, Next);
    LeadsOn(s, 1, Next);
    s := Step(s, 1, Next);
    assert LateWoken().tls[1].ready[..0] + LateWoken().tls[1].ready[1..] == [];
    assert s == LateFreed();
  }

  lemma LateStoreFaults()
    ensures Step(LateFreed(), 2, Next).fault
  {
  }

  lemma ToLateFreedFromStarted()
    ensures LeadsTo(LateFreed())
  {
    assert LeadsToBy(LateStarted(), []);
    hide *;
    ToLateRead();
    ToLateCleaned();
    ToLateWoken();
    ToLateFreed();
  }

  /** The record of a thread that has left its fiber and not cleaned up yet is no better.  Fiber 2, on a thread
      that has just started, loads the worker's; the worker goes on with nothing but steps that keep the
      invariant, and cleans up itself; when fiber 2 comes to its store, the flag has been freed. */
  lemma LateCleanupSetsFreedFlag() returns (s: State, after: Schedule)
    ensures Reachable(s) && Shaped(s) && |s.exec| == 3 && |s.stage| == 3 && !s.fault
    ensures s.exec[2] == Running(2) && s.stage[2] == PoolResume(1) && !StepOk(s, 2, Next)
    ensures s.tls[1].destination == Waiting && s.exec[1] != Running(s.tls[1].previous) && StepOk(s, 1, Next)
    ensures Meanwhile(s, 2, 2, after) && Run(s, after).fault
  {
    s := LateStarted();
    assert Reachable(s) by {
      hide *;
      ToWorkerPoolsFromStart();
      ToWorkerArmed();
      ToWorkerLeaves();
      ToLateSwitched();
      ToLateStarted();
    }
    assert !StepOk(s, 2, Next) && StepOk(s, 1, Next);
    ToLateFreedFromStarted();
    LateStoreFaults();
    hide Reachable, Step, StepOk, Run;
    LeadsOn(LateFreed(), 2, Next);
    after :| LeadsToBy(Step(LateFreed(), 2, Next), after);
  }

  // ---- A freed flag read

  /** The worker's job has armed a slot. */
  function WaiterArmed(): State {
    WorkerRuns().(stage := [Fresh, Registered(0, 0), Fresh], flags := [FlagState(1, true, false)],
                  regs := [Registration(1, 0, Open)])
  }

  lemma ToWaiterArmed()
    requires Reachable(WorkerRuns())
    ensures Reachable(WaiterArmed())
  {
    hide Reachable;
    var s := WorkerRuns();
    ReachableStep(s, 1, Wait);
    s := Step(s, 1, Wait);
    ReachableStep(s, 1, Action.Register);
    s := Step(s, 1, Action.Register);
    assert s == WaiterArmed();
  }

  /** The main callback runs on fiber 0. */
  function WakerRuns(): State {
    WaiterArmed().(idle := [false, false, true], stage := [Job, Registered(0, 0), Fresh], returnTo := [0, 1, NO_FIBER],
                  isMain := [true, false, false], exec := [Running(0), Running(1), BaseStart],
                  tls := [WorkerTls(0), WorkerTls(1), NO_TLS.(isIO := true)], place := [RunsOn(0), RunsOn(1), InPool])
  }

  lemma ToWakerRuns()
    requires Reachable(WaiterArmed())
    ensures Reachable(WakerRuns())
  {
    hide Reachable;
    var s := WaiterArmed();
    ReachableStep(s, 0, Claim(0));
    s := Step(s, 0, Claim(0));
    ReachableStep(s, 0, Next);
    s := Step(s, 0, Next);
    ReachableStep(s, 0, Next);
    s := Step(s, 0, Next);
    assert s == WakerRuns();
  }

  /** It has woken fiber 1, whose waiter has not looked yet, and has armed the slot for itself. */
  function WakerArmed(): State {
    WakerRuns().(stage := [Registered(1, 1), Registered(0, 0), Fresh],
                tls := [WorkerTls(0).(ready := [Entry(1, 0, 0)]), WorkerTls(1), NO_TLS.(isIO := true)],
                flags := [FlagState(1, true, false), FlagState(0, true, false)],
                regs := [Registration(1, 0, Woken), Registration(0, 1, Open)])
  }

  lemma ToWakerArmed()
    requires Reachable(WakerRuns())
    ensures Reachable(WakerArmed())
  {
    hide Reachable;
    var s := WakerRuns();
    ReachableStep(s, 0, Wake(0));
    s := Step(s, 0, Wake(0));
    ReachableStep(s, 0, Wait);
    s := Step(s, 0, Wait);
    ReachableStep(s, 0, Action.Register);
    s := Step(s, 0, Action.Register);
    assert [] + [Entry(1, 0, 0)] == [Entry(1, 0, 0)];
    assert s == WakerArmed();
  }

  /** Fiber 1 has cancelled fiber 0's registration and been answered true. */
  function Stolen(): State {
    WakerArmed().(stage := [Registered(1, 1), Job, Fresh],
                 flags := [FlagState(1, false, false), FlagState(0, true, false)],
                 regs := [Registration(1, 0, Woken), Registration(0, 1, Cancelled)])
  }

  /** Fiber 0 has been answered false and left the main thread for fiber 2, which looks at the ready list. */
  function StolenScans(): State {
    Stolen().(idle := [false, false, false], stage := [WaitResume(1, 1), Job, Scanning(0)], returnTo := [0, 1, 0],
             exec := [Running(2), Running(1), BaseStart],
             tls := [WorkerTls(2).(ready := [Entry(1, 0, 0)]), WorkerTls(1), NO_TLS.(isIO := true)],
             flags := [FlagState(1, false, false), FlagState(0, true, true)],
             place := [Parked, RunsOn(1), RunsOn(0)])
  }

  /** It has been answered false and is about to leave. */
  function StolenLeaves(): State {
    Stolen().(stage := [Leaving(1, 1), Job, Fresh],
              tls := [Tls(false, 0, 0, Flag(1), Waiting, [Entry(1, 0, 0)]), WorkerTls(1), NO_TLS.(isIO := true)])
  }

  /** It has acquired fiber 2. */
  function StolenClaims(): State {
    Stolen().(idle := [false, false, false], stage := [WaitSwitch(1, 1, 2), Job, Fresh],
             tls := [Tls(false, 2, 0, Flag(1), Waiting, [Entry(1, 0, 0)]), WorkerTls(1), NO_TLS.(isIO := true)],
             place := [RunsOn(0), RunsOn(1), ClaimedBy(0)])
  }

  lemma TheftHappens()
    ensures Steals(WakerArmed(), 1, Steal(1)) && Step(WakerArmed(), 1, Steal(1)) == Stolen()
  {
  }

  lemma VictimLeaves()
    ensures Step(Step(Stolen(), 0, Decline), 0, Next) == StolenLeaves()
  {
  }

  lemma VictimClaims()
    ensures Step(StolenLeaves(), 0, Claim(2)) == StolenClaims()
  {
  }

  /** It has just switched to fiber 2. */
  function StolenSwitched(): State {
    StolenClaims().(stage := [WaitResume(1, 1), Job, Fresh], returnTo := [0, 1, 0],
                    exec := [Running(2), Running(1), BaseStart], place := [TransitOn(0), RunsOn(1), RunsOn(0)])
  }

  lemma VictimSwitches()
    ensures Step(StolenClaims(), 0, Next) == StolenSwitched()
  {
  }

  /** It is about to set the flag of fiber 0. */
  function StolenStores(): State {
    StolenSwitched().(stage := [WaitResume(1, 1), Job, CleanStore(0, Waiting, 0, Flag(1), ToLoop)])
  }

  lemma VictimLoads()
    ensures Step(Step(StolenSwitched(), 0, Next), 0, Next) == StolenStores()
  {
  }

  lemma VictimSleeps()
    ensures Step(Step(StolenStores(), 0, Next), 0, Next) == StolenLoops()
  {
  }

  /** Fiber 2 has cleaned up. */
  function StolenLoops(): State {
    StolenScans().(stage := [WaitResume(1, 1), Job, Loop])
  }

  lemma LoopScans()
    ensures Step(StolenLoops(), 0, Next) == StolenScans()
  {
  }

  lemma FreedFlagIsRead()
    ensures Step(StolenScans(), 0, Next).fault
  {
  }

  /** Reached without a wrong record or a theft, but its next step is one: fiber 1, woken already, is
      answered true by cancelling fiber 0's registration and frees its flag; ten steps later the main
      thread reads that flag.  Fiber 0's registration is gone, and nothing will wake it. */
  lemma TheftReadsFreedFlag() returns (s: State, after: Schedule)
    ensures Reachable(s) && Shaped(s) && !StepOk(s, 1, Steal(1))
    ensures |after| == 10 && !Run(s, []).fault && !Step(s, 1, Steal(1)).fault
    ensures Run(Step(s, 1, Steal(1)), after).fault
  {
    s := WakerArmed();
    assert Reachable(s) by {
      hide *;
      ToStart();
      ToWorkerRuns();
      ToWaiterArmed();
      ToWakerRuns();
      ToWakerArmed();
    }
    TheftHappens();
    assert !s.fault && !Stolen().fault && Run(s, []) == s;
    hide Reachable;
    after := TheftGoesWrong();
  }

  lemma TheftGoesWrong() returns (after: Schedule)
    ensures |after| == 10 && Run(Stolen(), after).fault
  {
    var s := Stolen();
    VictimLeaves();
    VictimClaims();
    VictimSwitches();
    VictimLoads();
    VictimSleeps();
    LoopScans();
    FreedFlagIsRead();
    assert Run(s, []) == s && Shaped(s);
    hide Step, Run, Stolen, StolenLeaves, StolenClaims, StolenSwitched, StolenStores,
      StolenLoops, StolenScans;
    after := [];
    ThenOne(s, after, 0, Decline); after := after + [(0, Decline)];
    ThenOne(s, after, 0, Next); after := after + [(0, Next)];
    ThenOne(s, after, 0, Claim(2)); after := after + [(0, Claim(2))];
    ThenOne(s, after, 0, Next); after := after + [(0, Next)];
    ThenOne(s, after, 0, Next); after := after + [(0, Next)];
    ThenOne(s, after, 0, Next); after := after + [(0, Next)];
    ThenOne(s, after, 0, Next); after := after + [(0, Next)];
    ThenOne(s, after, 0, Next); after := after + [(0, Next)];
    ThenOne(s, after, 0, Next); after := after + [(0, Next)];
    ThenOne(s, after, 0, Next); after := after + [(0, Next)];
  }
}
