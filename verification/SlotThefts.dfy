/** When exactly a registration can be cancelled by somebody else than its maker. */
module SlotThefts {
  import opened WaitSlots
  import opened SlotLifecycle
  import opened SlotTheorems
  import opened SlotWaiters

  /** The waiter, testing slot i, is still to load the counter or has read t there, or is about to try the
      compare-exchange. */
  predicate WouldSteal(l: Local, i: nat, t: nat) {
    match l
    case Recheck(j, _) => j == i
    case TestUse(j, _, v) => j == i && v == t
    case TestTarget(j, _, v) => j == i && v == t
    case Cancel(j, _, _) => j == i
    case _ => false
  }

  ghost predicate ThiefAt(c: Counter, i: nat, m: nat)
    requires m < |c.arms|
  {
    exists g: nat :: g < |c.fibers| && g != c.arms[m].maker && WouldSteal(c.fibers[g], i, c.arms[m].req.target)
  }

  ghost predicate Stolen(c: Counter, m: nat)
    requires Shaped(c)
  {
    m < |c.arms| && c.outcome[m].Cancelled? && c.outcome[m].who != c.arms[m].maker
  }

  ghost predicate CanBeStolen(c: Counter, m: nat)
    requires Shaped(c)
  {
    exists sched: Schedule :: Stolen(Run(c, sched), m)
  }

  // ---- No thief at the slot: never stolen

  /** Not stolen, and as long as it is armed nobody is in a position to steal it. */
  ghost predicate Safe(c: Counter, i: nat, m: nat) {
    Inv(c) && m < |c.arms| && c.arms[m].at == i && !Stolen(c, m) && (c.outcome[m] == Open ==> !ThiefAt(c, i, m))
  }

  lemma NoThiefArises(c: Counter, f: nat, a: Action, i: nat, m: nat)
    requires Inv(c) && i < |c.slots| && c.phase[i] == Armed(m) && m < |c.arms| && f < |c.fibers|
    requires !WouldSteal(c.fibers[f], i, c.arms[m].req.target)
    ensures f < |Step(c, f, a).fibers| && !WouldSteal(Step(c, f, a).fibers[f], i, c.arms[m].req.target)
  {
    assert FiberOk(c, f) && SlotOk(c, i);
    hide Inv;
  }

  lemma OnlyWinnersCancel(c: Counter, f: nat, a: Action, m: nat)
    requires Inv(c) && m < |c.arms|
    ensures m < |Step(c, f, a).outcome|
    ensures c.outcome[m] != Open ==> Step(c, f, a).outcome[m] == c.outcome[m] || Step(c, f, a).outcome[m].Woken?
    ensures c.outcome[m] == Open && Step(c, f, a).outcome[m].Cancelled? ==>
              f < |c.fibers| && c.fibers[f].Cancel? && c.fibers[f].i == c.arms[m].at
              && Step(c, f, a).outcome[m].who == f
  {
    assert ArmOk(c, m);
    if f < |c.fibers| {
      assert FiberOk(c, f);
      var l := c.fibers[f];
      if l.Cancel? || l.ScanTake? || l.ScanPush? { assert SlotOk(c, l.i); }
    }
    hide Inv;
  }

  lemma StepKeepsSafe(c: Counter, f: nat, a: Action, i: nat, m: nat)
    requires Safe(c, i, m)
    ensures Safe(Step(c, f, a), i, m)
  {
    var r := Step(c, f, a);
    StepKeepsInv(c, f, a);
    ArmsOnlyGrow(c, f, a);
    OnlyWinnersCancel(c, f, a, m);
    assert ArmOk(c, m) && ArmOk(r, m);
    if c.outcome[m] == Open {
      forall g: nat | g < |r.fibers| && g != c.arms[m].maker ensures !WouldSteal(r.fibers[g], i, c.arms[m].req.target) {
        assert !WouldSteal(c.fibers[g], i, c.arms[m].req.target);
        if g == f { NoThiefArises(c, f, a, i, m); } else { OthersUnmoved(c, f, a, g); }
      }
    }
    hide Step, Inv;
  }

  lemma {:induction false} RunKeepsSafe(c: Counter, sched: Schedule, i: nat, m: nat)
    requires Safe(c, i, m)
    ensures Safe(Run(c, sched), i, m)
    decreases |sched|
  {
    assert Shaped(c);
    hide Step, Safe;
    if sched != [] {
      RunKeepsSafe(c, sched[..|sched| - 1], i, m);
      StepKeepsSafe(Run(c, sched[..|sched| - 1]), sched[|sched| - 1].0, sched[|sched| - 1].1, i, m);
    }
  }

  // ---- A thief at the slot: it can succeed

  function StepsToSteal(l: Local): nat {
    match l
    case Recheck(_, _) => 4
    case TestUse(_, _, _) => 3
    case TestTarget(_, _, _) => 2
    case _ => 1
  }

  lemma ThiefCloses(c: Counter, g: nat, i: nat, m: nat)
    requires Inv(c) && i < |c.slots| && c.phase[i] == Armed(m) && m < |c.arms|
    requires g < |c.fibers| && WouldSteal(c.fibers[g], i, c.arms[m].req.target)
    requires c.fibers[g].Recheck? ==> c.value == c.arms[m].req.target
    ensures var r := Step(c, g, Go);
            && m < |r.arms| && r.arms[m] == c.arms[m]
            && (r.outcome[m] == Cancelled(g)
                || (g < |r.fibers| && i < |r.slots| && r.phase[i] == Armed(m) && !r.fibers[g].Recheck?
                    && WouldSteal(r.fibers[g], i, c.arms[m].req.target)
                    && StepsToSteal(r.fibers[g]) < StepsToSteal(c.fibers[g])))
  {
    assert SlotOk(c, i) && FiberOk(c, g);
  }

  lemma {:induction false} ThiefRuns(c: Counter, g: nat, i: nat, m: nat) returns (sched: Schedule)
    requires Inv(c) && i < |c.slots| && c.phase[i] == Armed(m) && m < |c.arms|
    requires g < |c.fibers| && g != c.arms[m].maker && WouldSteal(c.fibers[g], i, c.arms[m].req.target)
    requires c.fibers[g].Recheck? ==> c.value == c.arms[m].req.target
    ensures Stolen(Run(c, sched), m)
    decreases StepsToSteal(c.fibers[g])
  {
    hide Step;
    ThiefCloses(c, g, i, m);
    var r := Step(c, g, Go);
    StepKeepsInv(c, g, Go);
    assert Shaped(r);
    var rest: Schedule := [];
    if r.outcome[m] != Cancelled(g) {
      rest := ThiefRuns(r, g, i, m);
    } else {
      assert Run(r, []) == r;
    }
    sched := [(g, Go)] + rest;
    RunCons(c, g, Go, rest);
  }

  // ---- A waiter still to load the counter: somebody else must be able to bring it to the target

  /** The counter has the target of arming m, or somebody but g can finish what it is doing without consuming
      that arming, and then change the counter. */
  ghost predicate TargetInReach(c: Counter, g: nat, i: nat, m: nat)
    requires m < |c.arms|
  {
    c.value == c.arms[m].req.target
    || exists h: nat :: h < |c.fibers| && h != g && !Threat(c.fibers[h], i, c.arms[m].req.target)
  }

  /** Some other waiter lingers on slot i, and has read the target there or can still come to read it. */
  ghost predicate TheftPossible(c: Counter, i: nat, m: nat)
    requires m < |c.arms|
  {
    exists g: nat :: g < |c.fibers| && g != c.arms[m].maker && WouldSteal(c.fibers[g], i, c.arms[m].req.target)
                     && (c.fibers[g].Recheck? ==> TargetInReach(c, g, i, m))
  }

  /** How far a fiber is from the end of its call, at most. */
  function Remaining(l: Local, slots: nat): int {
    match l
    case Scan(j, _) => if j <= slots then 7 * (slots - j) + 1 else 1
    case ScanUse(j, _) => 7 * (slots - j)
    case ScanTarget(j, _) => 7 * (slots - j) - 1
    case ScanTake(j, _) => 7 * (slots - j) - 2
    case ScanPush(j, _, _) => 7 * (slots - j) - 3
    case ScanFree(j, _, _) => 7 * (slots - j) - 4
    case Acquire(j, _) => if j <= slots then 10 + slots - j else 10
    case Fill(_, _) => 9
    case Arming(_, _) => 8
    case Recheck(_, _) => 7
    case TestUse(_, _, _) => 6
    case TestTarget(_, _, _) => 5
    case Cancel(_, _, _) => 4
    case Unslot(_, _, _) => 3
    case Answer(_, _) => 2
    case SlotsFull => 2
    case Away => 0
  }

  function Onward(l: Local): Action {
    if l.Answer? || l == SlotsFull then Leave else Go
  }

  lemma ScannerGetsOn(c: Counter, h: nat)
    requires Inv(c) && h < |c.fibers| && Scanning(c.fibers[h])
    ensures h < |ScannerStep(c, h).fibers|
    ensures 0 <= Remaining(ScannerStep(c, h).fibers[h], |c.slots|) < Remaining(c.fibers[h], |c.slots|)
  {
    assert FiberOk(c, h);
    hide Inv;
  }

  lemma WaiterGetsOn(c: Counter, h: nat)
    requires Inv(c) && h < |c.fibers| && !Scanning(c.fibers[h]) && c.fibers[h] != Away
    requires !c.fibers[h].Answer? && c.fibers[h] != SlotsFull
    ensures h < |WaiterStep(c, h).fibers|
    ensures 0 <= Remaining(WaiterStep(c, h).fibers[h], |c.slots|) < Remaining(c.fibers[h], |c.slots|)
  {
    assert FiberOk(c, h);
    hide Inv;
  }

  lemma HarmlessKeepsArmed(c: Counter, h: nat, i: nat, m: nat)
    requires Inv(c) && i < |c.slots| && c.phase[i] == Armed(m) && m < |c.arms|
    requires h < |c.fibers| && !Threat(c.fibers[h], i, c.arms[m].req.target)
    ensures Step(c, h, Onward(c.fibers[h])).phase[i] == Armed(m)
  {
    assert SlotOk(c, i) && FiberOk(c, h);
    hide Inv;
  }

  /** One step of a harmless fiber towards the end of its call. */
  lemma HarmlessMoves(c: Counter, h: nat, i: nat, m: nat)
    requires Inv(c) && i < |c.slots| && c.phase[i] == Armed(m) && m < |c.arms| && c.value != c.arms[m].req.target
    requires h < |c.fibers| && c.fibers[h] != Away && !Threat(c.fibers[h], i, c.arms[m].req.target)
    ensures var r := Step(c, h, Onward(c.fibers[h]));
            && |r.fibers| == |c.fibers| && |r.slots| == |c.slots| && r.value == c.value && c.arms <= r.arms
            && r.phase[i] == Armed(m) && !Threat(r.fibers[h], i, c.arms[m].req.target)
            && 0 <= Remaining(r.fibers[h], |c.slots|) < Remaining(c.fibers[h], |c.slots|)
  {
    HarmlessKeepsArmed(c, h, i, m);
    ArmsOnlyGrow(c, h, Onward(c.fibers[h]));
    var l := c.fibers[h];
    if Scanning(l) {
      ScannerStaysHarmless(c, h, i, m);
      ScannerGetsOn(c, h);
    } else if !l.Answer? && l != SlotsFull {
      WaiterStaysHarmless(c, h, i, m);
      WaiterGetsOn(c, h);
    }
    hide Inv, ScannerStep, WaiterStep;
  }

  /** A harmless fiber can finish its call, everybody else where they are and arming m where it is. */
  ghost predicate OnlyFinished(c: Counter, r: Counter, g: nat, i: nat, m: nat)
    requires g < |c.fibers| && m < |c.arms| && i < |c.slots|
  {
    && Inv(r) && |r.fibers| == |c.fibers| && |r.slots| == |c.slots| && r.value == c.value && c.arms <= r.arms
    && r.phase[i] == Armed(m) && r.fibers[g] == c.fibers[g]
  }

  lemma {:induction false} HarmlessFinishes(c: Counter, h: nat, g: nat, i: nat, m: nat) returns (sched: Schedule)
    requires Inv(c) && i < |c.slots| && c.phase[i] == Armed(m) && m < |c.arms| && c.value != c.arms[m].req.target
    requires h < |c.fibers| && g < |c.fibers| && g != h && !Threat(c.fibers[h], i, c.arms[m].req.target)
    ensures OnlyFinished(c, Run(c, sched), g, i, m) && Run(c, sched).fibers[h] == Away
    decreases Remaining(c.fibers[h], |c.slots|)
  {
    assert Shaped(c);
    if c.fibers[h] == Away {
      sched := [];
      assert Run(c, []) == c;
    } else {
      var a := Onward(c.fibers[h]);
      HarmlessMoves(c, h, i, m);
      OthersUnmoved(c, h, a, g);
      StepKeepsInv(c, h, a);
      hide Step, Inv;
      var rest := HarmlessFinishes(Step(c, h, a), h, g, i, m);
      sched := [(h, a)] + rest;
      RunCons(c, h, a, rest);
    }
  }

  /** The counter can be brought to the target by a fiber that is away. */
  lemma AwayBringsTarget(c: Counter, h: nat, g: nat, i: nat, m: nat)
    requires Inv(c) && i < |c.slots| && c.phase[i] == Armed(m) && m < |c.arms| && c.arms[m].req.target < 0x1_0000_0000
    requires h < |c.fibers| && c.fibers[h] == Away && g < |c.fibers| && g != h && c.value < 0x1_0000_0000
    ensures var r := Step(c, h, Add(c.arms[m].req.target - c.value));
            && g < |r.fibers| && i < |r.slots| && r.arms == c.arms && r.phase == c.phase && r.fibers[g] == c.fibers[g]
            && r.value == c.arms[m].req.target
  {
  }

  lemma {:induction false} RunTwice(c: Counter, a: Schedule, b: Schedule)
    requires Shaped(c)
    ensures Run(c, a + b) == Run(Run(c, a), b)
    decreases |b|
  {
    hide Step;
    if b == [] {
      assert a + b == a;
    } else {
      RunTwice(c, a, b[..|b| - 1]);
      assert (a + b)[..|a + b| - 1] == a + b[..|b| - 1];
    }
  }

  lemma TheftHappens(c: Counter, g: nat, i: nat, m: nat) returns (sched: Schedule)
    requires Inv(c) && i < |c.slots| && c.phase[i] == Armed(m) && m < |c.arms|
    requires c.value < 0x1_0000_0000 && c.arms[m].req.target < 0x1_0000_0000
    requires g < |c.fibers| && g != c.arms[m].maker && WouldSteal(c.fibers[g], i, c.arms[m].req.target)
    requires c.fibers[g].Recheck? ==> TargetInReach(c, g, i, m)
    ensures Stolen(Run(c, sched), m)
  {
    if c.fibers[g].Recheck? && c.value != c.arms[m].req.target {
      assert Shaped(c);
      hide Step, Run;
      var h: nat :| h < |c.fibers| && h != g && !Threat(c.fibers[h], i, c.arms[m].req.target);
      var first := HarmlessFinishes(c, h, g, i, m);
      var d := Run(c, first);
      var a := Add(d.arms[m].req.target - d.value);
      AwayBringsTarget(d, h, g, i, m);
      StepKeepsInv(d, h, a);
      var rest := ThiefRuns(Step(d, h, a), g, i, m);
      RunCons(d, h, a, rest);
      RunTwice(c, first, [(h, a)] + rest);
      sched := first + ([(h, a)] + rest);
    } else {
      sched := ThiefRuns(c, g, i, m);
    }
  }

  // ---- A lingering waiter that cannot come to read the target

  /** Waiter g lingers before its load, the target is not reached, and all others are about to consume
      arming m, rightfully or as scanners. */
  ghost predicate Stuck(c: Counter, g: nat, i: nat, m: nat) {
    && Inv(c) && m < |c.arms| && i < |c.slots| && c.phase[i] == Armed(m) && g < |c.fibers| && g != c.arms[m].maker
    && c.fibers[g].Recheck? && c.fibers[g].i == i && c.value != c.arms[m].req.target
    && forall h: nat | h < |c.fibers| && h != g ::
         Threat(c.fibers[h], i, c.arms[m].req.target)
         && (h != c.arms[m].maker ==> !WouldSteal(c.fibers[h], i, c.arms[m].req.target))
  }

  lemma LoaderGivesUp(c: Counter, g: nat, i: nat, m: nat)
    requires Stuck(c, g, i, m)
    ensures Safe(Step(c, g, Go), i, m)
  {
    var r := Step(c, g, Go);
    StepKeepsInv(c, g, Go);
    ArmsOnlyGrow(c, g, Go);
    assert SlotOk(c, i) && SlotOk(r, i);
    forall h: nat | h < |r.fibers| && h != c.arms[m].maker ensures !WouldSteal(r.fibers[h], i, c.arms[m].req.target) {
      OthersUnmoved(c, g, Go, h);
    }
  }

  /** One of the others consumes arming m, or stays about to. */
  lemma ThreatGoesOn(c: Counter, f: nat, g: nat, i: nat, m: nat)
    requires Stuck(c, g, i, m) && f < |c.fibers| && f != g
    ensures var r := Step(c, f, Go);
            && f < |r.fibers| && m < |r.arms| && r.arms[m] == c.arms[m] && r.value == c.value
            && if r.outcome[m] == Open then
                 i < |r.slots| && r.phase[i] == Armed(m) && Threat(r.fibers[f], i, c.arms[m].req.target)
                 && (f != c.arms[m].maker ==> !WouldSteal(r.fibers[f], i, c.arms[m].req.target))
               else
                 r.outcome[m] == Won(f) || (r.outcome[m] == Cancelled(f) && f == c.arms[m].maker)
  {
    assert SlotOk(c, i) && FiberOk(c, f);
    var l := c.fibers[f];
    if l.ScanPush? || l.ScanTake? || l.Cancel? { assert SlotOk(c, l.i); }
    hide Inv;
  }

  lemma StuckStep(c: Counter, f: nat, a: Action, g: nat, i: nat, m: nat)
    requires Stuck(c, g, i, m)
    ensures Safe(Step(c, f, a), i, m) || Stuck(Step(c, f, a), g, i, m)
  {
    var r := Step(c, f, a);
    assert SlotOk(c, i);
    if f < |c.fibers| && a == Go {
      if f == g {
        LoaderGivesUp(c, g, i, m);
      } else {
        ThreatGoesOn(c, f, g, i, m);
        StepKeepsInv(c, f, a);
        ArmsOnlyGrow(c, f, a);
        assert SlotOk(c, i);
        forall h: nat | h < |c.fibers| && h != f ensures r.fibers[h] == c.fibers[h] { OthersUnmoved(c, f, a, h); }
        hide Step, Inv;
      }
    } else if f < |c.fibers| {
      assert Threat(c.fibers[f], i, c.arms[m].req.target) || c.fibers[f].Recheck?;
      assert r == c;
    }
  }

  lemma {:induction false} RunKeepsStuck(c: Counter, sched: Schedule, g: nat, i: nat, m: nat)
    requires Stuck(c, g, i, m)
    ensures Safe(Run(c, sched), i, m) || Stuck(Run(c, sched), g, i, m)
    decreases |sched|
  {
    assert Shaped(c);
    if sched != [] {
      var pre := Run(c, sched[..|sched| - 1]);
      var (f, a) := (sched[|sched| - 1].0, sched[|sched| - 1].1);
      RunKeepsStuck(c, sched[..|sched| - 1], g, i, m);
      if Safe(pre, i, m) { StepKeepsSafe(pre, f, a, i, m); } else { StuckStep(pre, f, a, g, i, m); }
    }
    hide Step, Safe, Stuck;
  }

  /** Exactly once, exactly when: an armed registration can be cancelled behind its maker's back if and only
      if another waiter lingers on its slot that has read the target or can still come to read it. */
  lemma StolenIffLingering(c: Counter, i: nat, m: nat)
    requires Inv(c) && i < |c.slots| && c.phase[i] == Armed(m) && m < |c.arms|
    requires c.value < 0x1_0000_0000 && c.arms[m].req.target < 0x1_0000_0000
    ensures CanBeStolen(c, m) <==> TheftPossible(c, i, m)
  {
    assert SlotOk(c, i);
    var t := c.arms[m].req.target;
    if TheftPossible(c, i, m) {
      var g: nat :| g < |c.fibers| && g != c.arms[m].maker && WouldSteal(c.fibers[g], i, t)
                    && (c.fibers[g].Recheck? ==> TargetInReach(c, g, i, m));
      var sched := TheftHappens(c, g, i, m);
    } else {
      hide Step, Run;
      if ThiefAt(c, i, m) {
        var g: nat :| g < |c.fibers| && g != c.arms[m].maker && WouldSteal(c.fibers[g], i, t);
        assert !TargetInReach(c, g, i, m) && c.fibers[g].Recheck?;
        forall h: nat | h < |c.fibers| && h != g && h != c.arms[m].maker ensures !WouldSteal(c.fibers[h], i, t) {
          assert Threat(c.fibers[h], i, t);
        }
        assert Stuck(c, g, i, m);
        forall sched: Schedule ensures !Stolen(Run(c, sched), m) {
          RunKeepsStuck(c, sched, g, i, m);
          StuckIsOpen(Run(c, sched), g, i, m);
        }
      } else {
        forall sched: Schedule ensures !Stolen(Run(c, sched), m) { RunKeepsSafe(c, sched, i, m); }
      }
    }
  }

  lemma StuckIsOpen(c: Counter, g: nat, i: nat, m: nat)
    requires Shaped(c)
    ensures Stuck(c, g, i, m) ==> !Stolen(c, m)
  {
    if Stuck(c, g, i, m) { assert SlotOk(c, i); }
  }
}
