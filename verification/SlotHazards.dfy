/** Why the exactly-once promise needs its hypothesis: a run with slot reuse in which one waiter both
    returns and is put on a ready list, and another is never woken although its target is reached. */
module SlotHazards {
  import opened WaitSlots
  import opened SlotTheorems
  import opened SlotSolo

  lemma {:induction false} GoesIsRun(c0: Counter, sched: Schedule, f: nat, n: nat) returns (longer: Schedule)
    requires Shaped(c0)
    ensures Run(c0, longer) == Goes(Run(c0, sched), f, n)
  {
    hide Step;
    if n == 0 {
      longer := sched;
    } else {
      var s := GoesIsRun(c0, sched, f, n - 1);
      longer := s + [(f, Go)];
      assert longer[..|s|] == s;
    }
  }

  /** A run can be continued by letting one fiber go on alone. */
  lemma ThenAlone(c0: Counter, sched: Schedule, f: nat, r: Counter) returns (longer: Schedule)
    requires Shaped(c0) && Reaches(Run(c0, sched), f, r)
    ensures Run(c0, longer) == r
  {
    var n: nat :| Goes(Run(c0, sched), f, n) == r;
    longer := GoesIsRun(c0, sched, f, n);
  }

  lemma ThenOne(c0: Counter, sched: Schedule, f: nat, a: Action)
    requires Shaped(c0)
    ensures Run(c0, sched + [(f, a)]) == Step(Run(c0, sched), f, a)
  {
    assert (sched + [(f, a)])[..|sched|] == sched;
  }

  const FIRST: Request := Request(10, 100, 1)
  const SECOND: Request := Request(11, 101, 1)
  const BLANK: Slot := Slot(0xFFFF, 0, 0, true)

  /** Four slots; fibers 0 and 1 wait for 1, fiber 2 increments.  Fiber 0 has armed the first slot. */
  function FirstArmed(): Counter {
    Counter(0, [false, true, true, true], [Slot(10, 100, 1, false), BLANK, BLANK, BLANK], [Recheck(0, 0), Away, Away],
            [Armed(0), Free, Free, Free], [Arm(0, FIRST, 0)], [Open], [], map[], {})
  }

  /** Fiber 2 has incremented and won the slot. */
  function FirstTaken(): Counter {
    FirstArmed().(value := 1, slots := [Slot(10, 100, 1, true), BLANK, BLANK, BLANK],
                  fibers := [Recheck(0, 0), Away, ScanPush(0, 1, 0)],
                  phase := [Taken(2, 0), Free, Free, Free], outcome := [Won(2)], hits := {0})
  }

  /** Fiber 2 has incremented, woken fiber 0's registration and freed the slot. */
  function FirstWoken(): Counter {
    Counter(1, [true, true, true, true], [Slot(10, 100, 1, true), BLANK, BLANK, BLANK], [Recheck(0, 0), Away, Away],
            [Free, Free, Free, Free], [Arm(0, FIRST, 0)], [Woken(2, 1, 0)], [Entry(10, 100, 0, 2)], map[], {0})
  }

  /** Fiber 1 has armed the slot again while fiber 0 has still to load the counter. */
  function SecondArmed(): Counter {
    Counter(1, [false, true, true, true], [Slot(11, 101, 1, false), BLANK, BLANK, BLANK],
            [Recheck(0, 0), Recheck(0, 1), Away],
            [Armed(1), Free, Free, Free], [Arm(0, FIRST, 0), Arm(1, SECOND, 0)], [Woken(2, 1, 0), Open],
            [Entry(10, 100, 0, 2)], map[], {0, 1})
  }

  /** Fiber 0 has loaded the counter and taken the slot for its own. */
  function SecondTested(): Counter {
    SecondArmed().(fibers := [Cancel(0, 0, 1), Recheck(0, 1), Away])
  }

  /** Fiber 0 has cancelled fiber 1's registration; both have their answers. */
  function Stolen(): Counter {
    Counter(1, [true, true, true, true], [Slot(11, 101, 1, true), BLANK, BLANK, BLANK],
            [Answer(0, true), Answer(1, false), Away],
            [Free, Free, Free, Free], [Arm(0, FIRST, 0), Arm(1, SECOND, 0)], [Woken(2, 1, 0), Cancelled(0)],
            [Entry(10, 100, 0, 2)], map[0 := true, 1 := false], {0, 1})
  }

  function FirstFilled(): Counter {
    FirstArmed().(slots := [Slot(10, 100, 1, true), BLANK, BLANK, BLANK], fibers := [Arming(0, FIRST), Away, Away],
                  phase := [Held(0), Free, Free, Free], arms := [], outcome := [])
  }

  lemma FillsFirst()
    ensures Reaches(Step(Init(4, 3), 0, Register(FIRST)), 0, FirstFilled())
  {
    var c := Step(Init(4, 3), 0, Register(FIRST));
    assert c.fibers == [Acquire(0, FIRST), Away, Away] && c.free == [true, true, true, true]
           && c.phase == [Free, Free, Free, Free];
    hide Reaches;
    ReachesOne(c, 0);
    var c1 := Step(c, 0, Go);
    assert c1.fibers == [Fill(0, FIRST), Away, Away];
    ReachesStep(c, 0, c1);
    assert Step(c1, 0, Go) == FirstFilled();
  }

  lemma ArmsFirst()
    ensures Reaches(FirstFilled(), 0, FirstArmed())
  {
    ReachesOne(FirstFilled(), 0);
    assert Step(FirstFilled(), 0, Go) == FirstArmed();
  }

  /** Fiber 2 has incremented and found the slot in use by somebody who waits. */
  function FirstSeen(): Counter {
    FirstArmed().(value := 1, fibers := [Recheck(0, 0), Away, ScanTarget(0, 1)], hits := {0})
  }

  lemma SeesFirst()
    ensures Reaches(Step(FirstArmed(), 2, Add(1)), 2, FirstSeen())
  {
    var c := Step(FirstArmed(), 2, Add(1));
    assert WaitingFor(FirstArmed(), 1) == {0};
    assert c.fibers == [Recheck(0, 0), Away, Scan(0, 1)] && c.hits == {0};
    hide Reaches;
    ReachesOne(c, 2);
    var c1 := Step(c, 2, Go);
    assert c1.fibers == [Recheck(0, 0), Away, ScanUse(0, 1)];
    ReachesStep(c, 2, c1);
    assert Step(c1, 2, Go) == FirstSeen();
  }

  lemma TakesFirst()
    ensures Reaches(FirstSeen(), 2, FirstTaken())
  {
    var c := FirstSeen();
    hide Reaches;
    ReachesOne(c, 2);
    var c1 := Step(c, 2, Go);
    assert c1.fibers == [Recheck(0, 0), Away, ScanTake(0, 1)];
    ReachesStep(c, 2, c1);
    assert Step(c1, 2, Go) == FirstTaken();
  }

  /** It has put fiber 0 on its ready list and freed the slot, and has the other slots still to scan. */
  function FirstPushed(): Counter {
    FirstWoken().(fibers := [Recheck(0, 0), Away, Scan(1, 1)])
  }

  lemma PushesFirst()
    ensures Reaches(FirstTaken(), 2, FirstPushed())
  {
    var c := FirstTaken();
    hide Reaches;
    ReachesOne(c, 2);
    var c1 := Step(c, 2, Go);
    assert c1.fibers == [Recheck(0, 0), Away, ScanFree(0, 1, 0)];
    ReachesStep(c, 2, c1);
    assert Step(c1, 2, Go) == FirstPushed();
  }

  lemma ScansOn()
    ensures Reaches(FirstPushed(), 2, FirstWoken())
  {
    var c := FirstPushed();
    hide Reaches;
    ReachesOne(c, 2);
    var c1 := Step(c, 2, Go);
    assert c1.fibers == [Recheck(0, 0), Away, Scan(2, 1)];
    ReachesStep(c, 2, c1);
    var c2 := Step(c1, 2, Go);
    assert c2.fibers == [Recheck(0, 0), Away, Scan(3, 1)];
    ReachesStep(c, 2, c2);
    var c3 := Step(c2, 2, Go);
    assert c3.fibers == [Recheck(0, 0), Away, Scan(4, 1)];
    ReachesStep(c, 2, c3);
    assert Step(c3, 2, Go) == FirstWoken();
  }

  lemma ArmsSecond()
    ensures Reaches(Step(FirstWoken(), 1, Register(SECOND)), 1, SecondArmed())
  {
    var c := Step(FirstWoken(), 1, Register(SECOND));
    assert c.fibers == [Recheck(0, 0), Acquire(0, SECOND), Away];
    hide Reaches;
    ReachesOne(c, 1);
    var c1 := Step(c, 1, Go);
    assert c1.fibers == [Recheck(0, 0), Fill(0, SECOND), Away];
    ReachesStep(c, 1, c1);
    var c2 := Step(c1, 1, Go);
    assert c2.fibers == [Recheck(0, 0), Arming(0, SECOND), Away];
    ReachesStep(c, 1, c2);
    assert Step(c2, 1, Go) == SecondArmed();
  }

  lemma TestsSecond()
    ensures Reaches(SecondArmed(), 0, SecondTested())
  {
    var c := SecondArmed();
    hide Reaches;
    ReachesOne(c, 0);
    var c1 := Step(c, 0, Go);
    assert c1.fibers == [TestUse(0, 0, 1), Recheck(0, 1), Away];
    ReachesStep(c, 0, c1);
    var c2 := Step(c1, 0, Go);
    assert c2.fibers == [TestTarget(0, 0, 1), Recheck(0, 1), Away];
    ReachesStep(c, 0, c2);
    assert Step(c2, 0, Go) == SecondTested();
  }

  lemma Steals() returns (c: Counter)
    ensures Reaches(SecondTested(), 0, c) && Shaped(c) && Reaches(c, 1, Stolen())
  {
    var c0 := SecondTested();
    hide Reaches;
    ReachesOne(c0, 0);
    var c1 := Step(c0, 0, Go);
    assert c1.fibers == [Unslot(0, 1, 0), Recheck(0, 1), Away];
    ReachesStep(c0, 0, c1);
    c := Step(c1, 0, Go);
    assert c.fibers == [Answer(0, true), Recheck(0, 1), Away];
    ReachesOne(c, 1);
    var c3 := Step(c, 1, Go);
    assert c3.fibers == [Answer(0, true), TestUse(0, 1, 1), Away];
    ReachesStep(c, 1, c3);
    assert Step(c3, 1, Go) == Stolen();
  }

  lemma EmptyRun(c: Counter)
    requires Shaped(c)
    ensures Run(c, []) == c
  {
  }

  /** Without the hypothesis: the counter has both waiters' target, nothing is in flight, yet fiber 0's
      registration was answered true and also has a ready-list entry, while fiber 1's was answered
      false, is no longer armed and has none. */
  lemma ReuseStealsWakeup() returns (sched: Schedule)
    ensures var c := Run(Init(4, 3), sched);
            && Quiet(c) && c.answers == map[0 := true, 1 := false] && |c.arms| == 2
            && c.arms[0].req.target == c.arms[1].req.target == c.value
            && |c.woken| == 1 && c.woken[0].arm == 0
            && c.outcome[1] == Cancelled(0) && c.arms[1].maker == 1
  {
    assert Quiet(Stolen());
    var c0 := Init(4, 3);
    hide Step, Init, Run, Reaches, FirstFilled, FirstArmed, FirstSeen, FirstTaken, FirstPushed,
         FirstWoken, SecondArmed, SecondTested, Quiet;
    EmptyRun(c0);
    ThenOne(c0, [], 0, Register(FIRST));
    FillsFirst();
    sched := ThenAlone(c0, [] + [(0, Register(FIRST))], 0, FirstFilled());
    ArmsFirst();
    sched := ThenAlone(c0, sched, 0, FirstArmed());
    ThenOne(c0, sched, 2, Add(1));
    SeesFirst();
    sched := ThenAlone(c0, sched + [(2, Add(1))], 2, FirstSeen());
    TakesFirst();
    sched := ThenAlone(c0, sched, 2, FirstTaken());
    PushesFirst();
    sched := ThenAlone(c0, sched, 2, FirstPushed());
    ScansOn();
    sched := ThenAlone(c0, sched, 2, FirstWoken());
    ThenOne(c0, sched, 1, Register(SECOND));
    ArmsSecond();
    sched := ThenAlone(c0, sched + [(1, Register(SECOND))], 1, SecondArmed());
    TestsSecond();
    sched := ThenAlone(c0, sched, 0, SecondTested());
    var c := Steals();
    sched := ThenAlone(c0, sched, 0, c);
    sched := ThenAlone(c0, sched, 1, Stolen());
  }
}
