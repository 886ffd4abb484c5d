/** What the wait slots promise to the individual waiter: its registration is resolved exactly once,
    provided no slot is re-acquired under a waiter still testing it; and it is resolved only after the
    counter has had its target, precisely when nothing stale threatens its slot. */
module SlotWaiters {
  import opened WaitSlots
  import opened SlotLifecycle
  import opened SlotTheorems
  import Registry

  // ---------------------------------------------------------------------------------------------
  // Exactly once

  /** A waiter that armed slot i and has not finished testing it. */
  predicate Lingering(l: Local, i: nat) {
    match l
    case Recheck(j, _) => j == i
    case TestUse(j, _, _) => j == i
    case TestTarget(j, _, _) => j == i
    case Cancel(j, _, _) => j == i
    case _ => false
  }

  /** The step does not acquire a slot that another waiter is still testing. */
  ghost predicate Calm(c: Counter, f: nat, a: Action) {
    f < |c.fibers| && a == Go && c.fibers[f].Acquire? && c.fibers[f].i < |c.free| && c.free[c.fibers[f].i] ==>
      forall g: nat | g < |c.fibers| :: !Lingering(c.fibers[g], c.fibers[f].i)
  }

  ghost predicate CalmRun(c: Counter, sched: Schedule)
    requires Shaped(c)
    decreases |sched|
  {
    sched == [] ||
    var front := sched[..|sched| - 1];
    CalmRun(c, front) && Calm(Run(c, front), sched[|sched| - 1].0, sched[|sched| - 1].1)
  }

  /** A slot under test still belongs to the arming its tester made. */
  ghost predicate OwnSlot(c: Counter, g: nat)
    requires Shaped(c) && g < |c.fibers|
  {
    var l := c.fibers[g];
    && (l.Unslot? ==> l.arm == l.own)
    && (l.Recheck? || l.TestUse? || l.TestTarget? || l.Cancel? ==>
          l.i < |c.phase| && match c.phase[l.i]
          case Free => true
          case Held(_) => false
          case Armed(m) => m == l.arm
          case Taken(_, m) => m == l.arm)
  }

  /** The answer given to a registration agrees with its outcome, now and for good. */
  ghost predicate AnswerOk(c: Counter, m: nat)
    requires Shaped(c) && m < |c.arms|
  {
    && (m in c.answers ==> (c.answers[m] <==> c.outcome[m].Cancelled?))
    && (c.outcome[m].Cancelled? ==>
          c.outcome[m].who == c.arms[m].maker
          && (m !in c.answers ==> c.arms[m].maker < |c.fibers| && c.fibers[c.arms[m].maker].Unslot?
                                  && c.fibers[c.arms[m].maker].own == m))
  }

  ghost predicate OnceInv(c: Counter) {
    && Inv(c)
    && (forall g: nat | g < |c.fibers| :: OwnSlot(c, g))
    && (forall m: nat | m < |c.arms| :: AnswerOk(c, m))
  }

  lemma MoverKeepsOwnSlot(c: Counter, f: nat, a: Action)
    requires OnceInv(c) && Calm(c, f, a) && f < |c.fibers|
    ensures f < |Step(c, f, a).fibers| && OwnSlot(Step(c, f, a), f)
  {
    assert OwnSlot(c, f) && FiberOk(c, f);
    var l := c.fibers[f];
    if l.Cancel? || l.ScanTake? { assert SlotOk(c, l.i); }
    hide Inv;
  }

  lemma OtherKeepsOwnSlot(c: Counter, f: nat, a: Action, g: nat)
    requires OnceInv(c) && Calm(c, f, a) && g < |c.fibers| && f < |c.fibers| && g != f
    ensures g < |Step(c, f, a).fibers| && OwnSlot(Step(c, f, a), g)
  {
    assert OwnSlot(c, g) && FiberOk(c, f);
    OthersUnmoved(c, f, a, g);
    var l := c.fibers[f];
    if l.Cancel? || l.ScanTake? { assert SlotOk(c, l.i); }
    hide Inv;
  }

  lemma StepKeepsOwnSlot(c: Counter, f: nat, a: Action, g: nat)
    requires OnceInv(c) && Calm(c, f, a) && g < |c.fibers|
    ensures g < |Step(c, f, a).fibers| && OwnSlot(Step(c, f, a), g)
  {
    if f < |c.fibers| {
      if g == f { MoverKeepsOwnSlot(c, f, a); } else { OtherKeepsOwnSlot(c, f, a, g); }
    }
    hide WaiterStep, ScannerStep, AddStep;
  }

  lemma ScannerKeepsAnswer(c: Counter, f: nat, m: nat)
    requires OnceInv(c) && f < |c.fibers| && Scanning(c.fibers[f]) && m < |c.arms|
    ensures AnswerOk(Step(c, f, Go), m)
  {
    assert AnswerOk(c, m) && ArmOk(c, m) && FiberOk(c, f);
    var l := c.fibers[f];
    if l.ScanTake? || l.ScanPush? { assert SlotOk(c, l.i); }
    hide Inv, OnceInv;
  }

  lemma WaiterKeepsAnswer(c: Counter, f: nat, m: nat)
    requires OnceInv(c) && f < |c.fibers| && !Scanning(c.fibers[f]) && m < |Step(c, f, Go).arms|
    ensures AnswerOk(Step(c, f, Go), m)
  {
    assert OwnSlot(c, f) && FiberOk(c, f);
    if m < |c.arms| { assert AnswerOk(c, m); }
    var l := c.fibers[f];
    if l.Recheck? || l.TestUse? || l.TestTarget? || l.Cancel? { assert AnswerOk(c, l.arm) && SlotOk(c, l.i); }
    if l.Unslot? { assert SlotOk(c, l.i); }
    hide Inv, OnceInv;
  }

  lemma StepKeepsAnswer(c: Counter, f: nat, a: Action, m: nat)
    requires OnceInv(c) && m < |Step(c, f, a).arms|
    ensures AnswerOk(Step(c, f, a), m)
  {
    if f < |c.fibers| && a == Go {
      if Scanning(c.fibers[f]) { ScannerKeepsAnswer(c, f, m); } else { WaiterKeepsAnswer(c, f, m); }
    } else {
      assert AnswerOk(c, m);
      hide Inv;
    }
  }

  lemma StepKeepsOnce(c: Counter, f: nat, a: Action)
    requires OnceInv(c) && Calm(c, f, a)
    ensures OnceInv(Step(c, f, a))
  {
    var r := Step(c, f, a);
    StepKeepsInv(c, f, a);
    ArmsOnlyGrow(c, f, a);
    forall g: nat | g < |c.fibers| ensures OwnSlot(r, g) { StepKeepsOwnSlot(c, f, a, g); }
    forall m: nat | m < |r.arms| ensures AnswerOk(r, m) { StepKeepsAnswer(c, f, a, m); }
    hide Step;
  }

  lemma {:induction false} RunKeepsOnce(c: Counter, sched: Schedule)
    requires OnceInv(c) && CalmRun(c, sched)
    ensures OnceInv(Run(c, sched))
    decreases |sched|
  {
    assert Shaped(c);
    hide Step, OnceInv, Calm;
    if sched != [] {
      var front := sched[..|sched| - 1];
      RunKeepsOnce(c, front);
      StepKeepsOnce(Run(c, front), sched[|sched| - 1].0, sched[|sched| - 1].1);
    }
  }

  /** Exactly once: in every calm run, a registration answered true was won by its own maker and
      never has a ready-list entry; one answered false was not, and has at most one entry. */
  lemma ResolvedExactlyOnce(slots: nat, fibers: nat, sched: Schedule, m: nat)
    requires CalmRun(Init(slots, fibers), sched)
    requires var c := Run(Init(slots, fibers), sched); m < |c.arms| && m in c.answers
    ensures var c := Run(Init(slots, fibers), sched);
            && (c.answers[m] ==> c.outcome[m] == Cancelled(c.arms[m].maker)
                                 && forall j: nat | j < |c.woken| :: c.woken[j].arm != m)
            && (!c.answers[m] ==> !c.outcome[m].Cancelled?
                                  && forall j: nat, k: nat | j < |c.woken| && k < |c.woken|
                                     && c.woken[j].arm == m && c.woken[k].arm == m :: j == k)
            && (!c.answers[m] && Quiet(c) && c.outcome[m] == Open ==> c.arms[m].req.target != c.value)
            && (!c.answers[m] && Quiet(c) && c.outcome[m] != Open
                ==> exists j: nat :: j < |c.woken| && c.woken[j].arm == m)
  {
    var c0 := Init(slots, fibers);
    InitInv(slots, fibers);
    RunKeepsOnce(c0, sched);
    RunKeepsCovered(c0, sched);
    var c := Run(c0, sched);
    hide Run, Step, Init;
    assert AnswerOk(c, m) && ArmOk(c, m);
    forall j: nat | j < |c.woken| ensures c.woken[j].arm == m ==> c.outcome[m].Woken? && c.outcome[m].at == j {
      assert EntryOk(c, j);
    }
    var i := c.arms[m].at;
    assert SlotOk(c, i);
    if Quiet(c) && c.outcome[m] == Open {
      assert Covered(c, i) && !SomebodyComing(c, i, c.value);
    }
  }

  /** Only fiber w ever registers. */
  ghost predicate OnlyWaiter(sched: Schedule, w: nat) {
    forall j: nat | j < |sched| && sched[j].1.Register? :: sched[j].0 == w
  }

  predicate Registering(l: Local) {
    l.Acquire? || l.Fill? || l.Arming? || l.Recheck? || l.TestUse? || l.TestTarget? || l.Cancel? || l.Unslot?
  }

  ghost predicate NoOtherRegistering(c: Counter, w: nat) {
    forall g: nat | g < |c.fibers| && g != w :: !Registering(c.fibers[g])
  }

  lemma StaysOutside(c: Counter, f: nat, a: Action)
    requires Shaped(c) && f < |c.fibers| && !a.Register? && !Registering(c.fibers[f])
    ensures !Registering(Step(c, f, a).fibers[f])
  {
  }

  /** With one waiter, as on the counter of WaitForSingle, every run is calm. */
  lemma {:induction false} SingleWaiterIsCalm(slots: nat, fibers: nat, sched: Schedule, w: nat)
    requires OnlyWaiter(sched, w)
    ensures CalmRun(Init(slots, fibers), sched) && NoOtherRegistering(Run(Init(slots, fibers), sched), w)
    decreases |sched|
  {
    var c0 := Init(slots, fibers);
    if sched != [] {
      var front := sched[..|sched| - 1];
      SingleWaiterIsCalm(slots, fibers, front, w);
      var pre := Run(c0, front);
      var (f, a) := sched[|sched| - 1];
      assert sched[|sched| - 1].1 == a;
      hide Run, Init, Step;
      ArmsOnlyGrow(pre, f, a);
      forall g: nat | g < |pre.fibers| && g != w ensures !Registering(Step(pre, f, a).fibers[g]) {
        assert !Registering(pre.fibers[g]);
        OthersUnmoved(pre, f, a, g);
        if g == f { StaysOutside(pre, f, a); }
      }
    }
  }

  // ---------------------------------------------------------------------------------------------
  // Resolved only after the target was reached: exactly when nothing threatens the slot

  /** A fiber that may consume slot i, armed for target, without the counter having that value now. */
  predicate Threat(l: Local, i: nat, target: nat) {
    || ScannerComing(l, i, target)
    || (l.ScanTake? && l.i == i)
    || (l.Cancel? && l.i == i)
    || (l.TestUse? && l.i == i && l.seen == target)
    || (l.TestTarget? && l.i == i && l.seen == target)
  }

  ghost predicate Threatened(c: Counter, i: nat, target: nat) {
    exists g: nat :: g < |c.fibers| && Threat(c.fibers[g], i, target)
  }

  /** Some continuation resolves arming m although the counter never has its target meanwhile. */
  ghost predicate CanResolveUnjustified(c: Counter, m: nat)
    requires Shaped(c)
  {
    exists sched: Schedule :: ResolvesUnjustified(c, sched, m)
  }

  ghost predicate ResolvesUnjustified(c: Counter, sched: Schedule, m: nat)
    requires Shaped(c)
  {
    var r := Run(c, sched);
    m < |r.outcome| && r.outcome[m] != Open && m !in r.hits
  }

  lemma ScannerStaysHarmless(c: Counter, f: nat, i: nat, m: nat)
    requires Inv(c) && i < |c.slots| && c.phase[i] == Armed(m) && m < |c.arms| && f < |c.fibers|
    requires Scanning(c.fibers[f]) && !Threat(c.fibers[f], i, c.arms[m].req.target)
    ensures f < |ScannerStep(c, f).fibers| && !Threat(ScannerStep(c, f).fibers[f], i, c.arms[m].req.target)
  {
    assert SlotOk(c, i);
    hide Inv;
  }

  lemma WaiterStaysHarmless(c: Counter, f: nat, i: nat, m: nat)
    requires Inv(c) && i < |c.slots| && c.phase[i] == Armed(m) && m < |c.arms| && f < |c.fibers|
    requires !Scanning(c.fibers[f]) && !Threat(c.fibers[f], i, c.arms[m].req.target)
    requires c.value != c.arms[m].req.target
    ensures f < |WaiterStep(c, f).fibers| && !Threat(WaiterStep(c, f).fibers[f], i, c.arms[m].req.target)
  {
    assert SlotOk(c, i);
    hide Inv;
  }

  /** A fiber that is no threat to a slot whose target is not reached does not become one. */
  lemma NoThreatArises(c: Counter, f: nat, a: Action, i: nat, m: nat)
    requires Inv(c) && i < |c.slots| && c.phase[i] == Armed(m) && m < |c.arms| && f < |c.fibers|
    requires !Threat(c.fibers[f], i, c.arms[m].req.target) && m !in Step(c, f, a).hits
    ensures f < |Step(c, f, a).fibers| && !Threat(Step(c, f, a).fibers[f], i, c.arms[m].req.target)
  {
    assert ArmOk(c, m);
    HitsStay(c, f, a);
    if a == Go {
      if Scanning(c.fibers[f]) { ScannerStaysHarmless(c, f, i, m); } else { WaiterStaysHarmless(c, f, i, m); }
    }
    hide Inv, ScannerStep, WaiterStep;
  }

  lemma UnthreatenedStep(c: Counter, f: nat, a: Action, i: nat, m: nat)
    requires Inv(c) && i < |c.slots| && c.phase[i] == Armed(m) && m < |c.arms|
    requires !Threatened(c, i, c.arms[m].req.target)
    ensures var r := Step(c, f, a);
            m in r.hits || (r.phase[i] == Armed(m) && !Threatened(r, i, c.arms[m].req.target))
  {
    var r := Step(c, f, a);
    ArmsOnlyGrow(c, f, a);
    if m !in r.hits {
      forall g: nat | g < |r.fibers| ensures !Threat(r.fibers[g], i, c.arms[m].req.target) {
        assert !Threat(c.fibers[g], i, c.arms[m].req.target);
        if g == f { NoThreatArises(c, f, a, i, m); } else { OthersUnmoved(c, f, a, g); }
      }
      if f < |c.fibers| {
        assert FiberOk(c, f) && SlotOk(c, i);
        assert !Threat(c.fibers[f], i, c.arms[m].req.target);
      }
    }
  }

  lemma HitsStay(c: Counter, f: nat, a: Action)
    requires Shaped(c)
    ensures c.hits <= Step(c, f, a).hits
  {
  }

  lemma {:induction false} UnthreatenedRun(c: Counter, sched: Schedule, i: nat, m: nat)
    requires Inv(c) && i < |c.slots| && c.phase[i] == Armed(m) && m < |c.arms|
    requires !Threatened(c, i, c.arms[m].req.target)
    ensures var r := Run(c, sched);
            && c.arms <= r.arms && |r.slots| == |c.slots| && Inv(r)
            && (m in r.hits || (r.phase[i] == Armed(m) && !Threatened(r, i, c.arms[m].req.target)))
    decreases |sched|
  {
    hide Step;
    if sched != [] {
      var front := sched[..|sched| - 1];
      var (f, a) := sched[|sched| - 1];
      UnthreatenedRun(c, front, i, m);
      var pre := Run(c, front);
      StepKeepsInv(pre, f, a);
      HitsStay(pre, f, a);
      ArmsOnlyGrow(pre, f, a);
      if m !in pre.hits {
        assert pre.arms[m] == c.arms[m];
        UnthreatenedStep(pre, f, a, i, m);
      }
    }
  }

  lemma {:induction false} RunCons(c: Counter, f: nat, a: Action, rest: Schedule)
    requires Shaped(c)
    ensures Run(c, [(f, a)] + rest) == Run(Step(c, f, a), rest)
    decreases |rest|
  {
    hide Step;
    var s := [(f, a)] + rest;
    if rest == [] {
      assert s[..|s| - 1] == [];
    } else {
      RunCons(c, f, a, rest[..|rest| - 1]);
      assert s[..|s| - 1] == [(f, a)] + rest[..|rest| - 1];
    }
  }

  /** How far a threatening fiber is from consuming slot i. */
  function Distance(l: Local, i: nat): int {
    match l
    case Scan(j, _) => 6 * (i - j) + 5
    case ScanUse(j, _) => 6 * (i - j) + 4
    case ScanTarget(j, _) => 6 * (i - j) + 3
    case ScanTake(j, _) => 6 * (i - j) + 2
    case ScanPush(j, _, _) => 6 * (i - j) + 1
    case ScanFree(j, _, _) => 6 * (i - j)
    case TestUse(_, _, _) => 3
    case TestTarget(_, _, _) => 2
    case _ => 1
  }

  lemma ThreatCloses(c: Counter, g: nat, i: nat, m: nat)
    requires Inv(c) && i < |c.slots| && c.phase[i] == Armed(m) && m < |c.arms|
    requires g < |c.fibers| && Threat(c.fibers[g], i, c.arms[m].req.target)
    ensures var r := Step(c, g, Go);
            && r.hits == c.hits
            && (r.outcome[m] != Open
                || (r.phase[i] == Armed(m) && Threat(r.fibers[g], i, c.arms[m].req.target)
                    && 0 <= Distance(r.fibers[g], i) < Distance(c.fibers[g], i)))
  {
    assert SlotOk(c, i) && FiberOk(c, g);
  }

  lemma {:induction false} ThreatRuns(c: Counter, g: nat, i: nat, m: nat) returns (sched: Schedule)
    requires Inv(c) && i < |c.slots| && c.phase[i] == Armed(m) && m < |c.arms| && m !in c.hits
    requires g < |c.fibers| && Threat(c.fibers[g], i, c.arms[m].req.target)
    ensures ResolvesUnjustified(c, sched, m)
    decreases Distance(c.fibers[g], i)
  {
    hide Step;
    var r := Step(c, g, Go);
    ThreatCloses(c, g, i, m);
    ArmsOnlyGrow(c, g, Go);
    StepKeepsInv(c, g, Go);
    var rest: Schedule := [];
    if r.outcome[m] == Open {
      rest := ThreatRuns(r, g, i, m);
    }
    RunCons(c, g, Go, rest);
    sched := [(g, Go)] + rest;
    assert ResolvesUnjustified(c, sched, m);
  }

  /** The exact condition, whatever slots are reused and whoever runs: a registration just made can
      be resolved without the counter having its target if and only if some other call is at that
      moment in a position to consume its slot. */
  lemma WakeJustifiedIffUnthreatened(c: Counter, i: nat, m: nat)
    requires Inv(c) && i < |c.slots| && c.phase[i] == Armed(m) && m !in c.hits
    ensures m < |c.arms| && (CanResolveUnjustified(c, m) <==> Threatened(c, i, c.arms[m].req.target))
  {
    assert SlotOk(c, i);
    if Threatened(c, i, c.arms[m].req.target) {
      var g: nat :| g < |c.fibers| && Threat(c.fibers[g], i, c.arms[m].req.target);
      var sched := ThreatRuns(c, g, i, m);
    } else {
      forall sched: Schedule ensures !ResolvesUnjustified(c, sched, m) {
        UnthreatenedRun(c, sched, i, m);
        if m !in Run(c, sched).hits { assert SlotOk(Run(c, sched), i); }
      }
    }
  }

  /** What `hits` records: the arming existed and the counter had its target, at one and the same moment. */
  lemma {:induction false} HitWasAMoment(c: Counter, sched: Schedule, m: nat)
    requires Shaped(c) && m !in c.hits && m in Run(c, sched).hits
    ensures exists j: nat | j <= |sched| ::
              var r := Run(c, sched[..j]); m < |r.arms| && r.value == r.arms[m].req.target
    decreases |sched|
  {
    assert sched[..|sched|] == sched;
    if sched != [] {
      var front := sched[..|sched| - 1];
      if m in Run(c, front).hits {
        HitWasAMoment(c, front, m);
        var j: nat :| j <= |front| && var r := Run(c, front[..j]); m < |r.arms| && r.value == r.arms[m].req.target;
        assert front[..j] == sched[..j];
      } else {
        HitNow(Run(c, front), sched[|sched| - 1].0, sched[|sched| - 1].1, m);
        var r := Run(c, sched[..|sched|]);
        assert m < |r.arms| && r.value == r.arms[m].req.target;
      }
    }
  }

  lemma HitNow(c: Counter, f: nat, a: Action, m: nat)
    requires Shaped(c) && m !in c.hits && m in Step(c, f, a).hits
    ensures var r := Step(c, f, a); m < |r.arms| && r.value == r.arms[m].req.target
  {
  }

  // ---------------------------------------------------------------------------------------------
  // What the rest of the scheduler sees

  ghost function StatusOf(o: Outcome): Registry.Status {
    match o
    case Open => Registry.Open
    case Won(_) => Registry.Open
    case Cancelled(_) => Registry.Cancelled
    case Woken(_, _, _) => Registry.Woken
  }

  ghost function Registrations(c: Counter): (r: seq<Registry.Registration>)
    requires Shaped(c)
    ensures |r| == |c.arms|
  {
    seq(|c.arms|, m requires 0 <= m < |c.arms| =>
      Registry.Registration(c.arms[m].req.fiber, c.arms[m].req.flag, StatusOf(c.outcome[m])))
  }

  /** What a step means for the registrations. */
  ghost function EventOf(c: Counter, f: nat, a: Action): Registry.Event
    requires Shaped(c)
  {
    if f >= |c.fibers| || a != Go then Registry.Nothing else
    match c.fibers[f]
    case Arming(i, req) => if i < |c.slots| then Registry.Opened(req.fiber, req.flag) else Registry.Nothing
    case Cancel(i, _, _) =>
      if i < |c.slots| && !c.slots[i].inUse then Registry.WasCancelled(ArmingIn(c, i)) else Registry.Nothing
    case ScanPush(i, _, m) => if i < |c.slots| then Registry.WasWoken(m) else Registry.Nothing
    case _ => Registry.Nothing
  }

  /** The slots refine the plain registry: each step is one allowed registry event or none.  In calm runs a
      cancellation is always by the maker of the registration; otherwise it may be by a waiter whose own
      registration has been resolved before. */
  lemma SlotsRefineRegistry(c: Counter, f: nat, a: Action)
    requires Inv(c)
    ensures var e := EventOf(c, f, a);
            && Registry.Allowed(Registrations(c), e)
            && Registrations(Step(c, f, a)) == Registry.Apply(Registrations(c), e)
            && (OnceInv(c) && e.WasCancelled? ==> c.arms[e.id].maker == f)
            && (e.WasCancelled? ==>
                  var own := c.fibers[f].arm;
                  own < |c.arms| && c.arms[own].maker == f
                  && (e.id == own || Registrations(c)[own].status != Registry.Open))
  {
    if f < |c.fibers| {
      assert FiberOk(c, f);
      var l := c.fibers[f];
      if l.Cancel? { assert SlotOk(c, l.i) && ArmOk(c, l.arm); }
      if l.ScanTake? { assert SlotOk(c, l.i); }
      if l.ScanPush? { assert SlotOk(c, l.i); }
      if OnceInv(c) { assert OwnSlot(c, f); }
    }
    var r := Step(c, f, a);
    assert Registrations(r) == Registry.Apply(Registrations(c), EventOf(c, f, a));
  }
}
