/** Why the barrier needs clean armings: a queue of three jobs whose third is counted while the second has
    not begun, because the scan of the first job's Decrement comes late and wakes the second wait. */
module ClientHazards {
  import WaitSlots
  import opened Jobs
  import opened ClientMachine
  import opened ClientPrograms

  ghost predicate Leads(s: State, r: State)
    requires Shaped(s)
  {
    exists sched: Schedule :: Run(s, sched) == r
  }

  lemma LeadsNowhere(s: State)
    requires Shaped(s)
    ensures Leads(s, s)
  {
    assert Run(s, []) == s;
  }

  lemma LeadsOn(s: State, m: State, f: nat, a: Action)
    requires Shaped(s) && Shaped(m) && Leads(s, m)
    ensures Leads(s, Step(m, f, a))
  {
    hide Step;
    var sched: Schedule :| Run(s, sched) == m;
    var longer := sched + [(f, a)];
    assert longer[..|longer| - 1] == sched;
    assert Run(s, longer) == Step(m, f, a);
  }

  const ITEMS: seq<(JobPriority, nat)> := [(Normal, 70), (Normal, 71), (Normal, 72)]

  const SCRIPT: seq<Op> := [Sched(Normal, 70), Wait(0), Sched(Normal, 71), Wait(0), Sched(Normal, 72), Wait(0)]

  lemma ScriptIsQueue()
    ensures QueueScript(ITEMS) == SCRIPT
  {
    assert ITEMS[1..] == [(Normal, 71), (Normal, 72)];
    assert ITEMS[1..][1..] == [(Normal, 72)];
    assert ITEMS[1..][1..][1..] == [];
  }

  const BLANK: WaitSlots.Slot := WaitSlots.Slot(0xFFFF, 0, 0, true)

  /** The four slots with the first as given, client and worker as given, and nothing ever registered. */
  function Fresh(value: nat, client: WaitSlots.Local, worker: WaitSlots.Local): WaitSlots.Counter {
    WaitSlots.Counter(value, [true, true, true, true], [BLANK, BLANK, BLANK, BLANK], [client, worker],
                      [WaitSlots.Free, WaitSlots.Free, WaitSlots.Free, WaitSlots.Free], [], [], [], map[], {})
  }

  /** The client waits for 0 in the first slot. */
  function OneArmed(client: WaitSlots.Local, worker: WaitSlots.Local): WaitSlots.Counter {
    WaitSlots.Counter(1, [false, true, true, true], [WaitSlots.Slot(0, 0, 0, false), BLANK, BLANK, BLANK],
                      [client, worker],
                      [WaitSlots.Armed(0), WaitSlots.Free, WaitSlots.Free, WaitSlots.Free],
                      [WaitSlots.Arm(0, WaitSlots.Request(0, 0, 0), 0)], [WaitSlots.Open], [], map[], {})
  }

  /** Execute is about to begin. */
  function Start(): State {
    State(Fresh(0, WaitSlots.Away, WaitSlots.Away), [Client(SCRIPT, 0), Idle], [], [])
  }

  /** The first job is counted. */
  function FirstCounted(): State {
    State(Fresh(1, WaitSlots.Scan(0, 1), WaitSlots.Away), [Counting(SCRIPT, 0, 0), Idle],
          [Job(70, 0, 0, Counted(0))], [])
  }

  lemma ToFirstCounted()
    requires Shaped(Start()) && Leads(Start(), Start())
    ensures Leads(Start(), FirstCounted())
  {
    hide Leads;
    var s := Start();
    assert WaitSlots.WaitingFor(Fresh(0, WaitSlots.Away, WaitSlots.Away), 1) == {};
    LeadsOn(Start(), s, 0, Go);
    s := Step(s, 0, Go);
    assert [] + [Job(70, 0, 0, Counted(0))] == [Job(70, 0, 0, Counted(0))];
    assert s.ctr == FirstCounted().ctr;
    assert s == FirstCounted();
  }

  /** Its scan has passed three slots. */
  function FirstScanning(): State {
    State(Fresh(1, WaitSlots.Scan(3, 1), WaitSlots.Away), [Counting(SCRIPT, 0, 0), Idle],
          [Job(70, 0, 0, Counted(0))], [])
  }

  lemma ToFirstScanning()
    requires Shaped(Start()) && Leads(Start(), FirstCounted())
    ensures Leads(Start(), FirstScanning())
  {
    hide Leads;
    var s := FirstCounted();
    LeadsOn(Start(), s, 0, Go);
    s := Step(s, 0, Go);
    LeadsOn(Start(), s, 0, Go);
    s := Step(s, 0, Go);
    LeadsOn(Start(), s, 0, Go);
    s := Step(s, 0, Go);
    assert s.ctr == FirstScanning().ctr;
    assert s == FirstScanning();
  }

  /** Its scan is over. */
  function FirstScanned(): State {
    State(Fresh(1, WaitSlots.Away, WaitSlots.Away), [Counting(SCRIPT, 0, 0), Idle], [Job(70, 0, 0, Counted(0))], [])
  }

  lemma ToFirstScanned()
    requires Shaped(Start()) && Leads(Start(), FirstScanning())
    ensures Leads(Start(), FirstScanned())
  {
    hide Leads;
    var s := FirstScanning();
    LeadsOn(Start(), s, 0, Go);
    s := Step(s, 0, Go);
    LeadsOn(Start(), s, 0, Go);
    s := Step(s, 0, Go);
    assert s.ctr == FirstScanned().ctr;
    assert s == FirstScanned();
  }

  /** The first job is queued. */
  function FirstQueued(): State {
    State(Fresh(1, WaitSlots.Away, WaitSlots.Away), [Client(SCRIPT, 1), Idle], [Job(70, 0, 0, Queued)], [])
  }

  lemma ToFirstQueued()
    requires Shaped(Start()) && Leads(Start(), FirstScanned())
    ensures Leads(Start(), FirstQueued())
  {
    hide Leads;
    var s := FirstScanned();
    LeadsOn(Start(), s, 0, Go);
    s := Step(s, 0, Go);
    LeadsOn(Start(), s, 0, Go);
    s := Step(s, 0, Go);
    assert s.ctr == FirstQueued().ctr;
    assert s == FirstQueued();
  }

  /** Its body has run. */
  function FirstRan(): State {
    State(Fresh(1, WaitSlots.Away, WaitSlots.Away), [Client(SCRIPT, 1), BodyDone(0)], [Job(70, 0, 0, RanBy(1))], [])
  }

  lemma ToFirstRan()
    requires Shaped(Start()) && Leads(Start(), FirstQueued())
    ensures Leads(Start(), FirstRan())
  {
    hide Leads;
    var s := FirstQueued();
    LeadsOn(Start(), s, 1, Take(0));
    s := Step(s, 1, Take(0));
    LeadsOn(Start(), s, 1, Go);
    s := Step(s, 1, Go);
    LeadsOn(Start(), s, 1, Go);
    s := Step(s, 1, Go);
    assert s.ctr == FirstRan().ctr;
    assert s == FirstRan();
  }

  /** It has been counted down; the scan is still to come, with value 0. */
  function FirstDone(): State {
    State(Fresh(0, WaitSlots.Away, WaitSlots.Scan(0, 0)), [Client(SCRIPT, 1), Dropping(0)], [Job(70, 0, 0, Done)], [])
  }

  lemma ToFirstDone()
    requires Shaped(Start()) && Leads(Start(), FirstRan())
    ensures Leads(Start(), FirstDone())
  {
    hide Leads;
    var s := FirstRan();
    assert WaitSlots.WaitingFor(Fresh(1, WaitSlots.Away, WaitSlots.Away), 0) == {};
    LeadsOn(Start(), s, 1, Go);
    s := Step(s, 1, Go);
    assert s.ctr == FirstDone().ctr;
    assert s == FirstDone();
  }

  /** The client has found the counter at 0 and counted the second job. */
  function SecondCounted(): State {
    State(Fresh(1, WaitSlots.Scan(0, 1), WaitSlots.Scan(0, 0)), [Counting(SCRIPT, 2, 1), Dropping(0)],
          [Job(70, 0, 0, Done), Job(71, 0, 2, Counted(0))], [])
  }

  lemma ToSecondCounted()
    requires Shaped(Start()) && Leads(Start(), FirstDone())
    ensures Leads(Start(), SecondCounted())
  {
    hide Leads;
    var s := FirstDone();
    LeadsOn(Start(), s, 0, Go);
    s := Step(s, 0, Go);
    assert WaitSlots.WaitingFor(Fresh(0, WaitSlots.Away, WaitSlots.Scan(0, 0)), 1) == {};
    LeadsOn(Start(), s, 0, Go);
    s := Step(s, 0, Go);
    assert [Job(70, 0, 0, Done)] + [Job(71, 0, 2, Counted(0))] == [Job(70, 0, 0, Done), Job(71, 0, 2, Counted(0))];
    assert s.ctr == SecondCounted().ctr;
    assert s == SecondCounted();
  }

  /** Its scan has passed three slots. */
  function SecondScanning(): State {
    State(Fresh(1, WaitSlots.Scan(3, 1), WaitSlots.Scan(0, 0)), [Counting(SCRIPT, 2, 1), Dropping(0)],
          [Job(70, 0, 0, Done), Job(71, 0, 2, Counted(0))], [])
  }

  lemma ToSecondScanning()
    requires Shaped(Start()) && Leads(Start(), SecondCounted())
    ensures Leads(Start(), SecondScanning())
  {
    hide Leads;
    var s := SecondCounted();
    LeadsOn(Start(), s, 0, Go);
    s := Step(s, 0, Go);
    LeadsOn(Start(), s, 0, Go);
    s := Step(s, 0, Go);
    LeadsOn(Start(), s, 0, Go);
    s := Step(s, 0, Go);
    assert s.ctr == SecondScanning().ctr;
    assert s == SecondScanning();
  }

  /** Its scan is over. */
  function SecondScanned(): State {
    State(Fresh(1, WaitSlots.Away, WaitSlots.Scan(0, 0)), [Counting(SCRIPT, 2, 1), Dropping(0)],
          [Job(70, 0, 0, Done), Job(71, 0, 2, Counted(0))], [])
  }

  lemma ToSecondScanned()
    requires Shaped(Start()) && Leads(Start(), SecondScanning())
    ensures Leads(Start(), SecondScanned())
  {
    hide Leads;
    var s := SecondScanning();
    LeadsOn(Start(), s, 0, Go);
    s := Step(s, 0, Go);
    LeadsOn(Start(), s, 0, Go);
    s := Step(s, 0, Go);
    assert s.ctr == SecondScanned().ctr;
    assert s == SecondScanned();
  }

  /** The second job is queued. */
  function SecondQueued(): State {
    State(Fresh(1, WaitSlots.Away, WaitSlots.Scan(0, 0)), [Client(SCRIPT, 3), Dropping(0)],
          [Job(70, 0, 0, Done), Job(71, 0, 2, Queued)], [])
  }

  lemma ToSecondQueued()
    requires Shaped(Start()) && Leads(Start(), SecondScanned())
    ensures Leads(Start(), SecondQueued())
  {
    hide Leads;
    var s := SecondScanned();
    LeadsOn(Start(), s, 0, Go);
    s := Step(s, 0, Go);
    LeadsOn(Start(), s, 0, Go);
    s := Step(s, 0, Go);
    assert s.ctr == SecondQueued().ctr;
    assert s == SecondQueued();
  }

  /** The client is about to arm the first slot, waiting for 0. */
  function SecondArming(): State {
    State(SecondQueued().ctr.(fibers := [WaitSlots.Arming(0, WaitSlots.Request(0, 0, 0)), WaitSlots.Scan(0, 0)],
                              free := [false, true, true, true],
                              slots := [WaitSlots.Slot(0, 0, 0, true), BLANK, BLANK, BLANK],
                              phase := [WaitSlots.Held(0), WaitSlots.Free, WaitSlots.Free, WaitSlots.Free]),
          [Waiting(SCRIPT, 3, 2), Dropping(0)], [Job(70, 0, 0, Done), Job(71, 0, 2, Queued)], [])
  }

  lemma ToSecondArming()
    requires Shaped(Start()) && Leads(Start(), SecondQueued())
    ensures Leads(Start(), SecondArming())
  {
    hide Leads;
    var s := SecondQueued();
    LeadsOn(Start(), s, 0, Go);
    s := Step(s, 0, Go);
    LeadsOn(Start(), s, 0, Go);
    s := Step(s, 0, Go);
    LeadsOn(Start(), s, 0, Go);
    s := Step(s, 0, Go);
    assert s.ctr == SecondArming().ctr;
    assert s == SecondArming();
  }

  /** It has armed it. */
  function SecondArmed(): State {
    State(OneArmed(WaitSlots.Recheck(0, 0), WaitSlots.Scan(0, 0)),
          [Waiting(SCRIPT, 3, 2), Dropping(0)], [Job(70, 0, 0, Done), Job(71, 0, 2, Queued)], [2])
  }

  lemma ToSecondArmed()
    requires Shaped(Start()) && Leads(Start(), SecondArming())
    ensures Leads(Start(), SecondArmed())
  {
    hide Leads;
    var s := SecondArming();
    LeadsOn(Start(), s, 0, Go);
    s := Step(s, 0, Go);
    assert s.ctr == SecondArmed().ctr;
    assert s == SecondArmed();
  }

  /** It has read 1 and found the slot still armed. */
  function SecondTested(): State {
    State(OneArmed(WaitSlots.TestTarget(0, 0, 1), WaitSlots.Scan(0, 0)),
          [Waiting(SCRIPT, 3, 2), Dropping(0)], [Job(70, 0, 0, Done), Job(71, 0, 2, Queued)], [2])
  }

  lemma ToSecondTested()
    requires Shaped(Start()) && Leads(Start(), SecondArmed())
    ensures Leads(Start(), SecondTested())
  {
    hide Leads;
    var s := SecondArmed();
    LeadsOn(Start(), s, 0, Go);
    s := Step(s, 0, Go);
    LeadsOn(Start(), s, 0, Go);
    s := Step(s, 0, Go);
    assert s.ctr == SecondTested().ctr;
    assert s == SecondTested();
  }

  /** It sleeps. */
  function SecondAsleep(): State {
    State(OneArmed(WaitSlots.Away, WaitSlots.Scan(0, 0)).(answers := map[0 := false]),
          [Asleep(SCRIPT, 3, 2, 0), Dropping(0)], [Job(70, 0, 0, Done), Job(71, 0, 2, Queued)], [2])
  }

  lemma ToSecondAsleep()
    requires Shaped(Start()) && Leads(Start(), SecondTested())
    ensures Leads(Start(), SecondAsleep())
  {
    hide Leads;
    var s := SecondTested();
    LeadsOn(Start(), s, 0, Go);
    s := Step(s, 0, Go);
    LeadsOn(Start(), s, 0, Go);
    s := Step(s, 0, Go);
    assert s.ctr == SecondAsleep().ctr;
    assert s == SecondAsleep();
  }

  /** The first job's scan has found the slot armed. */
  function SecondSeen(): State {
    SecondAsleep().(ctr := SecondAsleep().ctr.(fibers := [WaitSlots.Away, WaitSlots.ScanTarget(0, 0)]))
  }

  lemma ToSecondSeen()
    requires Shaped(Start()) && Leads(Start(), SecondAsleep())
    ensures Leads(Start(), SecondSeen())
  {
    hide Leads;
    var s := SecondAsleep();
    LeadsOn(Start(), s, 1, Go);
    s := Step(s, 1, Go);
    LeadsOn(Start(), s, 1, Go);
    s := Step(s, 1, Go);
    assert s.ctr == SecondSeen().ctr;
    assert s == SecondSeen();
  }

  /** The first job's scan has won the slot. */
  function SecondTaken(): State {
    SecondAsleep().(ctr := SecondAsleep().ctr.(
      fibers := [WaitSlots.Away, WaitSlots.ScanPush(0, 0, 0)],
      slots := [WaitSlots.Slot(0, 0, 0, true), BLANK, BLANK, BLANK],
      phase := [WaitSlots.Taken(1, 0), WaitSlots.Free, WaitSlots.Free, WaitSlots.Free], outcome := [WaitSlots.Won(1)]))
  }

  lemma ToSecondTaken()
    requires Shaped(Start()) && Leads(Start(), SecondSeen())
    ensures Leads(Start(), SecondTaken())
  {
    hide Leads;
    var s := SecondSeen();
    LeadsOn(Start(), s, 1, Go);
    s := Step(s, 1, Go);
    LeadsOn(Start(), s, 1, Go);
    s := Step(s, 1, Go);
    assert s.ctr == SecondTaken().ctr;
    assert s == SecondTaken();
  }

  /** The documented promise of Queue, that its jobs run consecutively, fails: with one worker and the four
      slots of a Counter, the third job is counted while the second is still queued. */
  lemma QueueNotConsecutive() returns (sched: Schedule)
    ensures Init(4, [QueueScript(ITEMS)], 1) == Start()
    ensures var s := Run(Init(4, [QueueScript(ITEMS)], 1), sched);
            |s.jobs| == 3 && s.jobs[0].state == Done && s.jobs[1].state == Queued
            && s.jobs[2] == Job(72, 0, 4, Counted(0))
  {
    ScriptIsQueue();
    assert Init(4, [QueueScript(ITEMS)], 1).ctr == Start().ctr;
    assert Init(4, [QueueScript(ITEMS)], 1) == Start();
    var s := ToThirdCounted();
    sched :| Run(Start(), sched) == s;
    hide Run, Step;
  }

  lemma ToSecondTakenFromStart()
    ensures Shaped(Start()) && Leads(Start(), SecondTaken())
  {
    assert Shaped(Start());
    hide *;
    LeadsNowhere(Start());
    ToFirstCounted();
    ToFirstScanning();
    ToFirstScanned();
    ToFirstQueued();
    ToFirstRan();
    ToFirstDone();
    ToSecondCounted();
    ToSecondScanning();
    ToSecondScanned();
    ToSecondQueued();
    ToSecondArming();
    ToSecondArmed();
    ToSecondTested();
    ToSecondAsleep();
    ToSecondSeen();
    ToSecondTaken();
  }

  lemma ToThirdCounted() returns (s: State)
    ensures Shaped(Start()) && Leads(Start(), s)
    ensures |s.jobs| == 3 && s.jobs[0].state == Done && s.jobs[1].state == Queued
            && s.jobs[2] == Job(72, 0, 4, Counted(0))
  {
    ToSecondTakenFromStart();
    hide Leads;
    s := SecondTaken();
    LeadsOn(Start(), s, 1, Go);
    s := Step(s, 1, Go);
    LeadsOn(Start(), s, 0, Go);
    s := Step(s, 0, Go);
    LeadsOn(Start(), s, 0, Go);
    s := Step(s, 0, Go);
  }
}
