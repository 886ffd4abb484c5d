/** How the wait of a client ends: by the answer AddWaitingFiber gives it, or by the ready entry of its own
    registration, and by nothing else.  Holds in every run. */
module ClientWaits {
  import WaitSlots
  import SlotLifecycle
  import SlotTheorems
  import opened ClientMachine
  import opened ClientInvariant

  /** Registration m was made by fiber f and answered `done`. */
  ghost predicate Answered(c: WaitSlots.Counter, f: nat, m: nat, done: bool) {
    m < |c.arms| && c.arms[m].maker == f && m in c.answers && c.answers[m] == done
  }

  /** What fiber f has been told, is what was answered to its own registration. */
  ghost predicate ToldOk(c: WaitSlots.Counter, f: nat)
    requires f < |c.fibers|
  {
    match c.fibers[f]
    case Answer(m, done) => Answered(c, f, m, done)
    case _ => true
  }

  lemma WaiterAnswers(c: WaitSlots.Counter, f: nat)
    requires SlotLifecycle.Inv(c) && f < |c.fibers| && !WaitSlots.Scanning(c.fibers[f]) && ToldOk(c, f)
    ensures var r := WaitSlots.WaiterStep(c, f);
            && |r.fibers| == |c.fibers| && ToldOk(r, f)
            && forall m | m in c.answers :: m in r.answers && r.answers[m] == c.answers[m]
  {
    assert SlotLifecycle.FiberOk(c, f);
    hide SlotLifecycle.Inv;
  }

  lemma ScannerAnswers(c: WaitSlots.Counter, f: nat)
    requires WaitSlots.Shaped(c) && f < |c.fibers| && WaitSlots.Scanning(c.fibers[f])
    ensures var r := WaitSlots.ScannerStep(c, f);
            && |r.fibers| == |c.fibers| && !r.fibers[f].Answer? && r.answers == c.answers
  {
  }

  lemma StepAnswers(c: WaitSlots.Counter, f: nat, a: WaitSlots.Action)
    requires SlotLifecycle.Inv(c) && f < |c.fibers| && ToldOk(c, f)
    ensures var r := WaitSlots.Step(c, f, a);
            && |r.fibers| == |c.fibers| && ToldOk(r, f)
            && forall m | m in c.answers :: m in r.answers && r.answers[m] == c.answers[m]
  {
    if WaitSlots.Scanning(c.fibers[f]) { ScannerAnswers(c, f); } else { WaiterAnswers(c, f); }
    hide WaitSlots.ScannerStep, WaitSlots.WaiterStep, SlotLifecycle.Inv;
  }

  lemma StepKeepsTold(c: WaitSlots.Counter, f: nat, a: WaitSlots.Action, g: nat)
    requires SlotLifecycle.Inv(c) && f < |c.fibers| && g < |c.fibers| && ToldOk(c, f) && ToldOk(c, g)
    ensures |WaitSlots.Step(c, f, a).fibers| == |c.fibers| && ToldOk(WaitSlots.Step(c, f, a), g)
  {
    StepAnswers(c, f, a);
    SlotTheorems.OthersUnmoved(c, f, a, g);
    SlotTheorems.ArmsOnlyGrow(c, f, a);
    hide WaitSlots.Step, SlotLifecycle.Inv;
  }

  /** A client asleep has been told false about the registration it sleeps on, its own. */
  ghost predicate SleepOk(s: State, f: nat)
    requires Shaped(s) && f < |s.procs|
  {
    && ToldOk(s.ctr, f)
    && (s.procs[f].Asleep? ==> Answered(s.ctr, f, s.procs[f].arm, false))
  }

  ghost predicate SleepInv(s: State)
    requires Shaped(s)
  {
    forall f: nat | f < |s.procs| :: SleepOk(s, f)
  }

  /** The counter's part of a step of fiber f, if it has one. */
  ghost predicate CounterMovesBy(s: State, r: State, f: nat) {
    r.ctr == s.ctr || exists a: WaitSlots.Action :: r.ctr == StepOn(s.ctr, f, a)
  }

  ghost function StepOn(c: WaitSlots.Counter, f: nat, a: WaitSlots.Action): WaitSlots.Counter {
    if WaitSlots.Shaped(c) then WaitSlots.Step(c, f, a) else c
  }

  lemma MovesByOneStep(s: State, f: nat, a: Action)
    requires Shaped(s) && f < |s.procs|
    ensures CounterMovesBy(s, Step(s, f, a), f)
  {
    assert StepOn(s.ctr, f, WaitSlots.Go) == WaitSlots.Step(s.ctr, f, WaitSlots.Go);
    assert StepOn(s.ctr, f, WaitSlots.Leave) == WaitSlots.Step(s.ctr, f, WaitSlots.Leave);
    assert StepOn(s.ctr, f, WaitSlots.Add(1)) == WaitSlots.Step(s.ctr, f, WaitSlots.Add(1));
    assert StepOn(s.ctr, f, WaitSlots.Add(-1)) == WaitSlots.Step(s.ctr, f, WaitSlots.Add(-1));
    if s.procs[f].Client? && s.procs[f].pc < |s.procs[f].script| && s.procs[f].script[s.procs[f].pc].Wait? {
      var x := WaitSlots.Register(WaitSlots.Request(f, 0, s.procs[f].script[s.procs[f].pc].target));
      assert StepOn(s.ctr, f, x) == WaitSlots.Step(s.ctr, f, x);
    }
    hide WaitSlots.Step, StepOn;
  }

  /** Where the wait of client f stands after a step: it passes if told true, throws if no slot was free, sleeps
      if told false, and otherwise is still in AddWaitingFiber. */
  lemma WaitEnds(s: State, f: nat)
    requires Inv(s) && SleepInv(s) && f < |s.procs| && s.procs[f].Waiting?
    ensures var p, q, l := s.procs[f], Step(s, f, Go).procs, s.ctr.fibers[f];
            && f < |q|
            && (q[f] == Client(p.script, p.pc + 1) <==> l.Answer? && l.done)
            && (q[f].Threw? <==> l == WaitSlots.SlotsFull)
            && (q[f].Asleep? ==> q[f].script == p.script && q[f].pc == p.pc && Answered(s.ctr, f, q[f].arm, false))
            && (q[f].Asleep? <==> l.Answer? && !l.done)
            && (q[f] == p <==> !l.Answer? && l != WaitSlots.SlotsFull)
  {
    assert SleepOk(s, f);
    hide Inv, OnCounter;
  }

  lemma StepKeepsSleep(s: State, f: nat, a: Action)
    requires Inv(s) && SleepInv(s)
    ensures SleepInv(Step(s, f, a))
  {
    if f < |s.procs| {
      var r := Step(s, f, a);
      MovesByOneStep(s, f, a);
      assert SleepOk(s, f) && SlotLifecycle.Inv(s.ctr);
      OnlyFProceeds(s, f, a);
      forall g: nat | g < |r.procs| ensures SleepOk(r, g) {
        assert SleepOk(s, g);
        CounterKeepsSleep(s, r, f, g);
        hide Step, Inv, SleepInv, CounterMovesBy;
      }
    }
  }

  lemma OnlyFProceeds(s: State, f: nat, a: Action)
    requires Inv(s) && SleepInv(s) && f < |s.procs|
    ensures var r := Step(s, f, a);
            && |r.procs| == |s.procs| && (forall g: nat | g < |s.procs| && g != f :: r.procs[g] == s.procs[g])
            && (r.procs[f].Asleep? ==> r.procs[f] == s.procs[f] || Answered(s.ctr, f, r.procs[f].arm, false))
  {
    assert SleepOk(s, f);
    hide Inv, OnCounter;
  }

  lemma CounterKeepsSleep(s: State, r: State, f: nat, g: nat)
    requires Shaped(s) && Shaped(r) && SlotLifecycle.Inv(s.ctr) && CounterMovesBy(s, r, f)
    requires f < |s.procs| && g < |s.procs| == |r.procs| && ToldOk(s.ctr, f) && ToldOk(s.ctr, g)
    ensures ToldOk(r.ctr, g)
    ensures forall h: nat, m: nat, done: bool | Answered(s.ctr, h, m, done) :: Answered(r.ctr, h, m, done)
  {
    if r.ctr != s.ctr {
      var a :| r.ctr == StepOn(s.ctr, f, a);
      StepKeepsTold(s.ctr, f, a, g);
      StepAnswers(s.ctr, f, a);
      SlotTheorems.ArmsOnlyGrow(s.ctr, f, a);
    }
    hide WaitSlots.Step, SlotLifecycle.Inv, ToldOk;
  }

  lemma {:induction false} RunKeepsSleep(s: State, sched: Schedule)
    requires Inv(s) && SleepInv(s)
    ensures Inv(Run(s, sched)) && SleepInv(Run(s, sched))
    decreases |sched|
  {
    if sched != [] {
      RunKeepsSleep(s, sched[..|sched| - 1]);
      var m := Run(s, sched[..|sched| - 1]);
      StepKeepsInv(m, sched[|sched| - 1].0, sched[|sched| - 1].1);
      StepKeepsSleep(m, sched[|sched| - 1].0, sched[|sched| - 1].1);
    }
    assert Shaped(s);
    hide Step, Inv, SleepInv;
  }

  /** A client asleep goes on by a step of its own if and only if its own registration has a ready entry. */
  lemma SleeperGoesOnIffWoken(s: State, f: nat)
    requires Inv(s) && SleepInv(s) && f < |s.procs| && s.procs[f].Asleep?
    ensures var p, q := s.procs[f], Step(s, f, Go).procs;
            && f < |q| && Answered(s.ctr, f, p.arm, false)
            && (q[f] == Client(p.script, p.pc + 1)
                <==> exists j: nat :: j < |s.ctr.woken| && s.ctr.woken[j].arm == p.arm)
            && (q[f] == Client(p.script, p.pc + 1) || Step(s, f, Go) == s)
  {
    var m := s.procs[f].arm;
    assert SleepOk(s, f);
    assert SlotLifecycle.ArmOk(s.ctr, m);
    if j: nat :| j < |s.ctr.woken| && s.ctr.woken[j].arm == m {
      assert SlotLifecycle.EntryOk(s.ctr, j);
    }
    hide Inv, SlotLifecycle.Inv;
  }

  /** In every run: a client asleep on a registration made it itself and was told false. */
  lemma AsleepWasDeclined(slots: nat, scripts: seq<seq<Op>>, workers: nat, sched: Schedule, f: nat)
    requires var s := Run(Init(slots, scripts, workers), sched); f < |s.procs| && s.procs[f].Asleep?
    ensures var s := Run(Init(slots, scripts, workers), sched); Answered(s.ctr, f, s.procs[f].arm, false)
  {
    var s0 := Init(slots, scripts, workers);
    InitInv(slots, scripts, workers);
    assert SleepInv(s0);
    hide Inv, Run, Init;
    RunKeepsSleep(s0, sched);
    assert SleepOk(Run(s0, sched), f);
  }
}
