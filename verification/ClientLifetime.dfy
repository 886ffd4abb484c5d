/** How long the counter of WaitForSingle is used: it lives on the stack of its caller, and a scan of the
    job's Decrement may still be going through its slot when WaitForSingle returns. */
module ClientLifetime {
  import WaitSlots
  import SlotLifecycle
  import opened Jobs
  import opened ClientMachine
  import opened ClientInvariant
  import opened ClientBarrier
  import opened ClientPrograms
  import opened ClientHazards

  /** Some worker has not finished its scan. */
  ghost predicate ScanUnderWay(s: State)
    requires Shaped(s)
  {
    exists g: nat :: g < |s.procs| && s.procs[g].Dropping? && s.ctr.fibers[g] != WaitSlots.Away
  }

  /** Some continuation still uses the counter. */
  ghost predicate CounterUsedAgain(s: State)
    requires Shaped(s)
  {
    exists sched: Schedule :: Run(s, sched).ctr != s.ctr
  }

  lemma ScanningMoves(c: WaitSlots.Counter, g: nat)
    requires SlotLifecycle.Inv(c) && g < |c.fibers| && WaitSlots.Scanning(c.fibers[g])
    ensures WaitSlots.Step(c, g, WaitSlots.Go) != c
  {
    assert SlotLifecycle.FiberOk(c, g);
    assert WaitSlots.ScannerStep(c, g).fibers[g] != c.fibers[g];
  }

  /** All is done, and nobody is on the counter. */
  ghost predicate AllOver(s: State, c: WaitSlots.Counter, prio: JobPriority, id: nat) {
    && Inv(s) && s.ctr == c && |s.procs| > 0 && s.procs[0] == Client(SingleScript(prio, id), 2)
    && (forall j: nat | j < |s.jobs| :: s.jobs[j].state == Done)
    && (forall g: nat | 0 < g < |s.procs| :: !IsClient(s.procs[g]) && s.ctr.fibers[g] == WaitSlots.Away)
  }

  lemma StaysOver(s: State, f: nat, a: Action, c: WaitSlots.Counter, prio: JobPriority, id: nat)
    requires AllOver(s, c, prio, id)
    ensures AllOver(Step(s, f, a), c, prio, id)
  {
    StepKeepsInv(s, f, a);
    if f < |s.procs| {
      assert ProcOk(s, f);
      StepShifts(s, f, a);
      assert Step(s, f, a).ctr == s.ctr && Step(s, f, a).jobs == s.jobs;
    }
    hide Inv;
  }

  lemma {:induction false} RunStaysOver(s: State, sched: Schedule, prio: JobPriority, id: nat)
    requires AllOver(s, s.ctr, prio, id)
    ensures AllOver(Run(s, sched), s.ctr, prio, id)
    decreases |sched|
  {
    assert Shaped(s);
    hide Step, AllOver;
    if sched != [] {
      RunStaysOver(s, sched[..|sched| - 1], prio, id);
      StaysOver(Run(s, sched[..|sched| - 1]), sched[|sched| - 1].0, sched[|sched| - 1].1, s.ctr, prio, id);
    }
  }

  lemma UsedAgainIff(s: State, prio: JobPriority, id: nat)
    requires SingleInv(s, prio, id) && !prio.Unknown?
    requires s.procs[0] == Client(SingleScript(prio, id), 2)
    ensures Shaped(s) && (CounterUsedAgain(s) <==> ScanUnderWay(s))
  {
    SingleDone(s, prio, id);
    assert Inv(s) && Shaped(s);
    if ScanUnderWay(s) {
      var g: nat :| g < |s.procs| && s.procs[g].Dropping? && s.ctr.fibers[g] != WaitSlots.Away;
      assert ProcOk(s, g);
      ScanningMoves(s.ctr, g);
      assert Step(s, g, Go).ctr != s.ctr by { hide Inv, WaitSlots.Step; }
      assert [(g, Go)][..0] == [];
      assert Run(s, [(g, Go)]) == Step(s, g, Go);
    } else {
      forall g: nat | 0 < g < |s.procs| ensures s.ctr.fibers[g] == WaitSlots.Away { assert ProcOk(s, g); }
      assert ProcOk(s, 0);
      assert AllOver(s, s.ctr, prio, id);
      hide AllOver, Inv, Run, Step;
      forall sched: Schedule ensures Run(s, sched).ctr == s.ctr {
        RunStaysOver(s, sched, prio, id);
        OverIsSame(Run(s, sched), s.ctr, prio, id);
      }
    }
  }

  /** In every run, once WaitForSingle has returned, its counter is used again in some continuation if and
      only if the Decrement of the job has not finished its scan. */
  lemma CounterUsedAgainIff(slots: nat, prio: JobPriority, id: nat, workers: nat, sched: Schedule)
    requires !prio.Unknown?
    requires var s := Run(Init(slots, [SingleScript(prio, id)], workers), sched);
             |s.procs| > 0 && s.procs[0] == Client(SingleScript(prio, id), 2)
    ensures var s := Run(Init(slots, [SingleScript(prio, id)], workers), sched);
            CounterUsedAgain(s) <==> ScanUnderWay(s)
  {
    SingleRun(slots, prio, id, workers, sched);
    hide SingleInv, Run, Init, CleanRun, CounterUsedAgain, ScanUnderWay;
    UsedAgainIff(Run(Init(slots, [SingleScript(prio, id)], workers), sched), prio, id);
  }

  lemma OverIsSame(s: State, c: WaitSlots.Counter, prio: JobPriority, id: nat)
    requires AllOver(s, c, prio, id)
    ensures s.ctr == c
  {
  }

  // ---- A run in which it has not

  /** The one slot of a TinyCounter, never used. */
  function Tiny(value: nat, client: WaitSlots.Local, worker: WaitSlots.Local): WaitSlots.Counter {
    WaitSlots.Counter(value, [true], [BLANK], [client, worker], [WaitSlots.Free], [], [], [], map[], {})
  }

  /** WaitForSingle is called. */
  function Calling(): State {
    State(Tiny(0, WaitSlots.Away, WaitSlots.Away), [Client(SingleScript(Normal, 7), 0), Idle], [], [])
  }

  /** The job is counted. */
  function Called(): State {
    State(Tiny(1, WaitSlots.Scan(0, 1), WaitSlots.Away), [Counting(SingleScript(Normal, 7), 0, 0), Idle],
          [Job(7, 0, 0, Counted(0))], [])
  }

  lemma ToCalled()
    requires Shaped(Calling()) && Leads(Calling(), Calling())
    ensures Leads(Calling(), Called())
  {
    hide Leads;
    var s := Calling();
    assert WaitSlots.WaitingFor(Tiny(0, WaitSlots.Away, WaitSlots.Away), 1) == {};
    LeadsOn(Calling(), s, 0, Go);
    s := Step(s, 0, Go);
    assert [] + [Job(7, 0, 0, Counted(0))] == [Job(7, 0, 0, Counted(0))];
    assert s.ctr == Called().ctr;
    assert s == Called();
  }

  /** It is queued. */
  function CalledQueued(): State {
    State(Tiny(1, WaitSlots.Away, WaitSlots.Away), [Client(SingleScript(Normal, 7), 1), Idle],
          [Job(7, 0, 0, Queued)], [])
  }

  lemma ToCalledQueued()
    requires Shaped(Calling()) && Leads(Calling(), Called())
    ensures Leads(Calling(), CalledQueued())
  {
    hide Leads;
    var s := Called();
    LeadsOn(Calling(), s, 0, Go);
    s := Step(s, 0, Go);
    LeadsOn(Calling(), s, 0, Go);
    s := Step(s, 0, Go);
    LeadsOn(Calling(), s, 0, Go);
    s := Step(s, 0, Go);
    LeadsOn(Calling(), s, 0, Go);
    s := Step(s, 0, Go);
    assert s.ctr == CalledQueued().ctr;
    assert s == CalledQueued();
  }

  /** Its body has run. */
  function CalledRan(): State {
    State(Tiny(1, WaitSlots.Away, WaitSlots.Away), [Client(SingleScript(Normal, 7), 1), BodyDone(0)],
          [Job(7, 0, 0, RanBy(1))], [])
  }

  lemma ToCalledRan()
    requires Shaped(Calling()) && Leads(Calling(), CalledQueued())
    ensures Leads(Calling(), CalledRan())
  {
    hide Leads;
    var s := CalledQueued();
    LeadsOn(Calling(), s, 1, Take(0));
    s := Step(s, 1, Take(0));
    LeadsOn(Calling(), s, 1, Go);
    s := Step(s, 1, Go);
    LeadsOn(Calling(), s, 1, Go);
    s := Step(s, 1, Go);
    assert s.ctr == CalledRan().ctr;
    assert s == CalledRan();
  }

  /** It is counted down, the scan still to come, and the early look at the counter has ended the wait. */
  function Returned(): State {
    State(Tiny(0, WaitSlots.Away, WaitSlots.Scan(0, 0)), [Client(SingleScript(Normal, 7), 2), Dropping(0)],
          [Job(7, 0, 0, Done)], [])
  }

  lemma ToReturned()
    requires Shaped(Calling()) && Leads(Calling(), CalledRan())
    ensures Leads(Calling(), Returned())
  {
    hide Leads;
    var s := CalledRan();
    assert WaitSlots.WaitingFor(Tiny(1, WaitSlots.Away, WaitSlots.Away), 0) == {};
    LeadsOn(Calling(), s, 1, Go);
    s := Step(s, 1, Go);
    LeadsOn(Calling(), s, 0, Go);
    s := Step(s, 0, Go);
    assert s.ctr == Returned().ctr;
    assert s == Returned();
  }

  /** WaitForSingle has returned while the job's Decrement is still to go through the slot of its counter. */
  lemma ReturnsBeforeScanEnds() returns (sched: Schedule)
    ensures var s := Run(Init(1, [SingleScript(Normal, 7)], 1), sched);
            && |s.procs| == 2 && s.procs[0] == Client(SingleScript(Normal, 7), 2) && ScanUnderWay(s)
  {
    assert Init(1, [SingleScript(Normal, 7)], 1).ctr == Calling().ctr;
    assert Init(1, [SingleScript(Normal, 7)], 1) == Calling();
    assert Returned().procs[1].Dropping? && Returned().ctr.fibers[1] != WaitSlots.Away;
    assert ScanUnderWay(Returned()) && Shaped(Calling());
    hide Run, Step, ScanUnderWay;
    LeadsNowhere(Calling());
    ToCalled();
    ToCalledQueued();
    ToCalledRan();
    ToReturned();
    sched :| Run(Calling(), sched) == Returned();
  }
}
