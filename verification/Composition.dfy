/** Slots and fibers together: one counter's slot machine, whose calls are made by the fibers of the hand-off
    machine, on the threads that execute them.  Its calm runs are runs of the hand-off machine in which
    nothing is stolen, so that all that FiberTheorems says holds of them. */
module Composition {
  import Registry
  import WaitSlots
  import SlotLifecycle
  import SlotTheorems
  import SlotWaiters
  import FiberMachine
  import FiberInvariant
  import FiberTheorems

  datatype Joint = Joint(c: WaitSlots.Counter, s: FiberMachine.State)

  predicate Shaped(j: Joint) {
    WaitSlots.Shaped(j.c) && FiberMachine.Shaped(j.s) && |j.c.fibers| == |j.s.stage|
  }

  function Init(slots: nat, fibers: nat, io: seq<bool>): (j: Joint)
    ensures Shaped(j)
  {
    Joint(WaitSlots.Init(slots, fibers), FiberMachine.Init(fibers, io))
  }

  /** What a thread does with the fiber it executes. */
  datatype Action =
    | Count(n: int)                       // its job calls Increment or Decrement
    | Ask(target: nat)                    // it calls AddWaitingFiber, in WaitForCounter
    | Go                                  // the next step of that call
    | Return                              // from AddWaitingFiber
    | Other(a: FiberMachine.Action)       // anything else

  /** The steps of the hand-off that are none of the slots' business. */
  predicate OutsideSlots(a: FiberMachine.Action) {
    a.Claim? || a.Next? || a.GetJob? || a.NoJob? || a.Finish? || a.Exit? || a.Wait?
  }

  datatype MaybeAction = Still | Does(a: FiberMachine.Action)

  /** What a step of fiber f inside its call is to the hand-off. */
  function InCall(c: WaitSlots.Counter, f: nat): MaybeAction
    requires WaitSlots.Shaped(c) && f < |c.fibers|
  {
    match c.fibers[f]
    case Arming(i, _) => if i < |c.slots| then Does(FiberMachine.Register) else Still
    case Cancel(i, own, _) =>
      if i >= |c.slots| || c.slots[i].inUse then Still
      else if WaitSlots.ArmingIn(c, i) == own then Does(FiberMachine.Cancel)
      else Does(FiberMachine.Steal(WaitSlots.ArmingIn(c, i)))
    case ScanPush(i, _, m) => if i < |c.slots| then Does(FiberMachine.Wake(m)) else Still
    case _ => Still
  }

  /** And its return. */
  function OnReturn(l: WaitSlots.Local): MaybeAction {
    match l
    case Answer(_, done) => if done then Still else Does(FiberMachine.Decline)
    case SlotsFull => Does(FiberMachine.Full)
    case _ => Still
  }

  function FiberPart(s: FiberMachine.State, u: nat, a: MaybeAction): (r: FiberMachine.State)
    requires FiberMachine.Shaped(s)
    ensures FiberMachine.SameCast(s, r)
  {
    match a
    case Still => s
    case Does(b) => FiberMachine.Step(s, u, b)
  }

  /** The fiber that thread u executes. */
  predicate Executes(j: Joint, u: nat) {
    u < |j.s.exec| && j.s.exec[u].Running? && j.s.exec[u].fiber < |j.c.fibers|
  }

  /** What the step of thread u is on the counter, if anything. */
  datatype MaybeCall = Silent | Calls(f: nat, a: WaitSlots.Action)

  function CounterPart(j: Joint, u: nat, a: Action): MaybeCall
    requires Shaped(j)
  {
    if !Executes(j, u) then Silent else
    var f := j.s.exec[u].fiber;
    var l := j.c.fibers[f];
    match a
    case Count(n) =>
      if j.s.stage[f] == FiberMachine.Job && l == WaitSlots.Away then Calls(f, WaitSlots.Add(n)) else Silent
    case Ask(t) =>
      if j.s.stage[f].HaveFlag? && l == WaitSlots.Away then
        Calls(f, WaitSlots.Register(WaitSlots.Request(j.s.tls[u].current, j.s.stage[f].flag, t)))
      else Silent
    case Go => if InsideCall(l) then Calls(f, WaitSlots.Go) else Silent
    case Return => if l.Answer? || l == WaitSlots.SlotsFull then Calls(f, WaitSlots.Leave) else Silent
    case Other(_) => Silent
  }

  predicate InsideCall(l: WaitSlots.Local) {
    l != WaitSlots.Away && !l.Answer? && l != WaitSlots.SlotsFull
  }

  /** What it is in the hand-off, if anything. */
  function HandOffPart(j: Joint, u: nat, a: Action): MaybeAction
    requires Shaped(j)
  {
    match a
    case Go => if CounterPart(j, u, a).Calls? then InCall(j.c, j.s.exec[u].fiber) else Still
    case Return => if CounterPart(j, u, a).Calls? then OnReturn(j.c.fibers[j.s.exec[u].fiber]) else Still
    case Other(b) =>
      if OutsideSlots(b) && (Executes(j, u) ==> j.c.fibers[j.s.exec[u].fiber] == WaitSlots.Away) then Does(b) else Still
    case _ => Still
  }

  function Step(j: Joint, u: nat, a: Action): (r: Joint)
    requires Shaped(j)
    ensures Shaped(r)
  {
    var call := CounterPart(j, u, a);
    match call
    case Silent => Joint(j.c, FiberPart(j.s, u, HandOffPart(j, u, a)))
    case Calls(f, b) =>
      SlotTheorems.ArmsOnlyGrow(j.c, f, b);
      Joint(WaitSlots.Step(j.c, f, b), FiberPart(j.s, u, HandOffPart(j, u, a)))
  }

  type Schedule = seq<(nat, Action)>

  function Run(j: Joint, sched: Schedule): (r: Joint)
    requires Shaped(j)
    ensures Shaped(r)
    decreases |sched|
  {
    if sched == [] then j
    else Step(Run(j, sched[..|sched| - 1]), sched[|sched| - 1].0, sched[|sched| - 1].1)
  }

  // ---- How the two hang together

  /** Where fiber f stands in a call on the counter, and in the hand-off. */
  predicate Link(l: WaitSlots.Local, st: FiberMachine.Stage, f: nat) {
    match l
    case Away => !st.Registered?
    case Acquire(_, req) => st == FiberMachine.HaveFlag(req.flag) && req.fiber == f
    case Fill(_, req) => st == FiberMachine.HaveFlag(req.flag) && req.fiber == f
    case Arming(_, req) => st == FiberMachine.HaveFlag(req.flag) && req.fiber == f
    case Recheck(_, m) => st.Registered? && st.reg == m
    case TestUse(_, m, _) => st.Registered? && st.reg == m
    case TestTarget(_, m, _) => st.Registered? && st.reg == m
    case Cancel(_, m, _) => st.Registered? && st.reg == m
    case Unslot(_, _, _) => st == FiberMachine.Job
    case Answer(m, done) => if done then st == FiberMachine.Job else st.Registered? && st.reg == m
    case SlotsFull => st.HaveFlag?
    case _ => st == FiberMachine.Job
  }

  ghost predicate Linked(j: Joint) {
    && Shaped(j) && j.s.regs == SlotWaiters.Registrations(j.c)
    && forall f: nat | f < |j.c.fibers| :: Link(j.c.fibers[f], j.s.stage[f], f)
  }

  ghost predicate Inv(j: Joint) {
    Linked(j) && SlotWaiters.OnceInv(j.c) && FiberInvariant.Inv(j.s)
  }

  /** The step acquires no slot that another waiter is still testing, and begins to clean up no wrong record. */
  ghost predicate StepOk(j: Joint, u: nat, a: Action)
    requires Shaped(j)
  {
    && (CounterPart(j, u, a).Calls? ==> SlotWaiters.Calm(j.c, CounterPart(j, u, a).f, CounterPart(j, u, a).a))
    && (HandOffPart(j, u, a).Does? ==> FiberInvariant.RecordOk(j.s, u, HandOffPart(j, u, a).a))
  }

  ghost predicate StepsOk(j: Joint, sched: Schedule)
    requires Shaped(j)
    decreases |sched|
  {
    sched == [] ||
    var front := sched[..|sched| - 1];
    StepsOk(j, front) && StepOk(Run(j, front), sched[|sched| - 1].0, sched[|sched| - 1].1)
  }

  lemma InitInv(slots: nat, fibers: nat, io: seq<bool>)
    ensures Inv(Init(slots, fibers, io))
  {
    SlotLifecycle.InitInv(slots, fibers);
    FiberInvariant.InitInv(fibers, io);
  }

  /** The event of a call's step, and its part in the hand-off, say the same. */
  predicate SameEvent(e: Registry.Event, a: MaybeAction, current: nat, flag: nat, own: nat) {
    match a
    case Still => e == Registry.Nothing
    case Does(b) =>
      match b
      case Register => e == Registry.Opened(current, flag)
      case Cancel => e == Registry.WasCancelled(own)
      case Steal(r) => e == Registry.WasCancelled(r) && r != own
      case Wake(r) => e == Registry.WasWoken(r)
      case _ => false
  }

  lemma EventsAgree(j: Joint, u: nat, f: nat)
    requires Inv(j) && u < |j.s.exec| && j.s.exec[u] == FiberMachine.Running(f) && f < |j.c.fibers|
    requires InsideCall(j.c.fibers[f])
    ensures var st := j.s.stage[f];
            SameEvent(SlotWaiters.EventOf(j.c, f, WaitSlots.Go), InCall(j.c, f), j.s.tls[u].current,
                      if st.HaveFlag? then st.flag else 0, if st.Registered? then st.reg else 0)
  {
    assert FiberInvariant.ThreadOk(j.s, u) && SlotLifecycle.FiberOk(j.c, f) && Link(j.c.fibers[f], j.s.stage[f], f);
    hide SlotWaiters.OnceInv, SlotLifecycle.Inv, FiberInvariant.Inv;
  }

  /** A call's step is to the registrations what its part in the hand-off is. */
  lemma CallIsEvent(j: Joint, u: nat, f: nat)
    requires Inv(j) && u < |j.s.exec| && j.s.exec[u] == FiberMachine.Running(f) && f < |j.c.fibers|
    requires InsideCall(j.c.fibers[f])
    ensures var s, c := FiberPart(j.s, u, InCall(j.c, f)), WaitSlots.Step(j.c, f, WaitSlots.Go);
            s.regs == SlotWaiters.Registrations(c)
  {
    EventsAgree(j, u, f);
    assert Link(j.c.fibers[f], j.s.stage[f], f);
    SlotWaiters.SlotsRefineRegistry(j.c, f, WaitSlots.Go);
    hide WaitSlots.Step, SlotWaiters.Registrations, SlotWaiters.OnceInv, SlotLifecycle.Inv, FiberInvariant.Inv,
      SlotWaiters.EventOf;
  }

  lemma ScanKeepsLink(j: Joint, u: nat, f: nat)
    requires Inv(j) && u < |j.s.exec| && j.s.exec[u] == FiberMachine.Running(f) && f < |j.c.fibers|
    requires WaitSlots.Scanning(j.c.fibers[f])
    ensures var s, c := FiberPart(j.s, u, InCall(j.c, f)), WaitSlots.ScannerStep(j.c, f);
            f < |c.fibers| && f < |s.stage| && Link(c.fibers[f], s.stage[f], f)
  {
    assert SlotLifecycle.FiberOk(j.c, f) && Link(j.c.fibers[f], j.s.stage[f], f);
    hide SlotWaiters.OnceInv, SlotLifecycle.Inv, FiberInvariant.Inv;
  }

  /** Where the hand-off puts the fiber by a step of AddWaitingFiber. */
  lemma HandOffStage(j: Joint, u: nat, f: nat)
    requires Inv(j) && u < |j.s.exec| && j.s.exec[u] == FiberMachine.Running(f) && f < |j.c.fibers|
    requires InsideCall(j.c.fibers[f]) && !WaitSlots.Scanning(j.c.fibers[f])
    ensures var l, st := j.c.fibers[f], FiberPart(j.s, u, InCall(j.c, f)).stage;
            && |st| == |j.s.stage|
            && st[f] == if l.Arming? then FiberMachine.Registered(l.req.flag, |j.c.arms|)
                        else if l.Cancel? && l.i < |j.c.slots| && !j.c.slots[l.i].inUse then FiberMachine.Job
                        else j.s.stage[f]
  {
    assert SlotLifecycle.FiberOk(j.c, f) && Link(j.c.fibers[f], j.s.stage[f], f);
    assert |j.s.regs| == |j.c.arms|;
    if j.c.fibers[f].Cancel? { CancelStage(j, u, f); }
    hide SlotWaiters.OnceInv, SlotLifecycle.Inv, SlotLifecycle.FiberOk, FiberInvariant.Inv, Linked, Link;
  }

  lemma CancelStage(j: Joint, u: nat, f: nat)
    requires Inv(j) && u < |j.s.exec| && j.s.exec[u] == FiberMachine.Running(f) && f < |j.c.fibers|
    requires j.c.fibers[f].Cancel? && j.s.stage[f].Registered? && j.s.stage[f].reg == j.c.fibers[f].arm
    ensures var l := j.c.fibers[f];
            FiberPart(j.s, u, InCall(j.c, f)).stage[f]
            == if l.i < |j.c.slots| && !j.c.slots[l.i].inUse then FiberMachine.Job else j.s.stage[f]
  {
    SlotWaiters.SlotsRefineRegistry(j.c, f, WaitSlots.Go);
    hide SlotWaiters.OnceInv, SlotLifecycle.Inv, FiberInvariant.Inv, SlotWaiters.Registrations, WaitSlots.Step;
  }

  lemma WaitKeepsLink(j: Joint, u: nat, f: nat)
    requires Inv(j) && u < |j.s.exec| && j.s.exec[u] == FiberMachine.Running(f) && f < |j.c.fibers|
    requires InsideCall(j.c.fibers[f]) && !WaitSlots.Scanning(j.c.fibers[f])
    ensures var s, c := FiberPart(j.s, u, InCall(j.c, f)), WaitSlots.WaiterStep(j.c, f);
            f < |c.fibers| && f < |s.stage| && Link(c.fibers[f], s.stage[f], f)
  {
    assert SlotLifecycle.FiberOk(j.c, f) && Link(j.c.fibers[f], j.s.stage[f], f);
    HandOffStage(j, u, f);
    hide SlotWaiters.OnceInv, SlotLifecycle.Inv, FiberInvariant.Inv, FiberPart, InCall;
  }

  /** The fiber's own part of the link after it. */
  lemma CallKeepsLink(j: Joint, u: nat, f: nat)
    requires Inv(j) && u < |j.s.exec| && j.s.exec[u] == FiberMachine.Running(f) && f < |j.c.fibers|
    requires InsideCall(j.c.fibers[f])
    ensures var s, c := FiberPart(j.s, u, InCall(j.c, f)), WaitSlots.Step(j.c, f, WaitSlots.Go);
            f < |c.fibers| && f < |s.stage| && Link(c.fibers[f], s.stage[f], f)
  {
    if WaitSlots.Scanning(j.c.fibers[f]) { ScanKeepsLink(j, u, f); } else { WaitKeepsLink(j, u, f); }
    assert Shaped(j);
    hide Inv, FiberPart, InCall, Link, WaitSlots.ScannerStep, WaitSlots.WaiterStep;
  }

  /** In a calm run nothing is stolen. */
  lemma CalmNeverSteals(j: Joint, f: nat)
    requires Inv(j) && f < |j.c.fibers|
    ensures InCall(j.c, f).Does? ==> !InCall(j.c, f).a.Steal?
  {
    assert SlotWaiters.OwnSlot(j.c, f) && SlotLifecycle.FiberOk(j.c, f);
    if j.c.fibers[f].Cancel? { assert SlotLifecycle.SlotOk(j.c, j.c.fibers[f].i); }
  }

  /** The call's or return's own fiber apart, nothing moves in the link. */
  lemma OthersLinked(j: Joint, u: nat, f: nat, b: WaitSlots.Action, a: MaybeAction)
    requires Linked(j) && u < |j.s.exec| && j.s.exec[u] == FiberMachine.Running(f) && f < |j.c.fibers|
    ensures var s, c := FiberPart(j.s, u, a), WaitSlots.Step(j.c, f, b);
            |c.fibers| == |j.c.fibers| && |s.stage| == |j.s.stage|
            && forall g: nat | g < |c.fibers| && g != f :: Link(c.fibers[g], s.stage[g], g)
  {
    SlotTheorems.ArmsOnlyGrow(j.c, f, b);
    forall g: nat | g < |j.c.fibers| && g != f ensures WaitSlots.Step(j.c, f, b).fibers[g] == j.c.fibers[g] {
      SlotTheorems.OthersUnmoved(j.c, f, b, g);
    }
    if a.Does? { FiberTheorems.StepTouches(j.s, u, a.a); }
    hide WaitSlots.Step, FiberMachine.Step;
  }

  lemma GoKeepsLinked(j: Joint, u: nat)
    requires Inv(j) && CounterPart(j, u, Go).Calls?
    ensures Linked(Step(j, u, Go))
  {
    var f := j.s.exec[u].fiber;
    CallIsEvent(j, u, f);
    CallKeepsLink(j, u, f);
    OthersLinked(j, u, f, WaitSlots.Go, InCall(j.c, f));
    hide Inv, WaitSlots.Step, FiberPart, InCall;
  }

  /** Beginning a call or returning from one opens and closes no registration. */
  lemma QuietCall(c: WaitSlots.Counter, f: nat, b: WaitSlots.Action)
    requires WaitSlots.Shaped(c) && f < |c.fibers| && b != WaitSlots.Go
    ensures SlotWaiters.Registrations(WaitSlots.Step(c, f, b)) == SlotWaiters.Registrations(c)
  {
    assert WaitSlots.Step(c, f, b).arms == c.arms && WaitSlots.Step(c, f, b).outcome == c.outcome;
  }

  lemma EdgeKeepsLinked(j: Joint, u: nat, a: Action)
    requires Inv(j) && a != Go && CounterPart(j, u, a).Calls?
    ensures Linked(Step(j, u, a))
  {
    var f, b := j.s.exec[u].fiber, CounterPart(j, u, a).a;
    assert FiberInvariant.ThreadOk(j.s, u) && Link(j.c.fibers[f], j.s.stage[f], f);
    QuietCall(j.c, f, b);
    OthersLinked(j, u, f, b, HandOffPart(j, u, a));
    hide Inv, SlotWaiters.Registrations;
  }

  lemma OutsideKeepsStages(s: FiberMachine.State, u: nat, b: FiberMachine.Action)
    requires FiberMachine.Shaped(s) && OutsideSlots(b)
    requires u < |s.exec| && s.exec[u].Running? && s.exec[u].fiber < |s.stage| ==> !s.stage[s.exec[u].fiber].Registered?
    ensures var r := FiberMachine.Step(s, u, b);
            && r.regs == s.regs
            && (u < |s.exec| && s.exec[u].Running? && s.exec[u].fiber < |s.stage|
                ==> !r.stage[s.exec[u].fiber].Registered?)
  {
    if u < |s.exec| && s.exec[u].Running? && s.exec[u].fiber < |s.stage| && b == FiberMachine.Next {
      NextKeepsStages(s, u, s.exec[u].fiber);
      hide FiberMachine.NextOf;
    }
  }

  lemma SwitchKeepsRegs(s: FiberMachine.State, u: nat, g: nat)
    requires FiberMachine.Shaped(s) && u < |s.exec|
    ensures FiberMachine.SwitchTo(s, u, g).regs == s.regs
  {
  }

  lemma HandOverKeepsRegs(s: FiberMachine.State, l: FiberMachine.Stage)
    requires FiberMachine.Shaped(s) && l.CleanStore?
    ensures FiberMachine.HandOver(s, l.destination, l.previous, l.stored).regs == s.regs
  {
  }

  lemma CheckReadyKeepsRegs(s: FiberMachine.State, u: nat, f: nat, k: nat)
    requires FiberMachine.Shaped(s) && u < |s.exec| && f < |s.stage| && !s.stage[f].Registered?
    ensures var r := FiberMachine.CheckReady(s, u, f, k); r.regs == s.regs && !r.stage[f].Registered?
  {
  }

  lemma NextKeepsStages(s: FiberMachine.State, u: nat, f: nat)
    requires FiberMachine.Shaped(s) && u < |s.exec| && f < |s.stage| && !s.stage[f].Registered?
    ensures var r := FiberMachine.NextOf(s, u, f); r.regs == s.regs && !r.stage[f].Registered?
  {
    match s.stage[f] {
      case PoolSwitch(g) => SwitchKeepsRegs(s, u, g);
      case WaitSwitch(_, _, g) => SwitchKeepsRegs(s, u, g);
      case CleanStore(_, _, _, _, _) => HandOverKeepsRegs(s, s.stage[f]);
      case Scanning(k) => CheckReadyKeepsRegs(s, u, f, k);
      case _ =>
    }
    hide FiberMachine.SwitchTo, FiberMachine.HandOver, FiberMachine.CheckReady;
  }

  lemma OtherKeepsLinked(j: Joint, u: nat, a: Action)
    requires Inv(j) && CounterPart(j, u, a).Silent?
    ensures Linked(Step(j, u, a))
  {
    var part := HandOffPart(j, u, a);
    if part.Does? {
      if Executes(j, u) { assert Link(j.c.fibers[j.s.exec[u].fiber], j.s.stage[j.s.exec[u].fiber], j.s.exec[u].fiber); }
      OutsideKeepsStages(j.s, u, part.a);
      FiberTheorems.StepTouches(j.s, u, part.a);
      hide FiberMachine.Step, Inv;
    }
  }

  /** A calm step with a right record keeps everything, and is one of the hand-off machine that keeps its
      invariant, or none. */
  lemma StepKeepsInv(j: Joint, u: nat, a: Action)
    requires Inv(j) && StepOk(j, u, a)
    ensures Inv(Step(j, u, a))
    ensures Step(j, u, a).s == FiberPart(j.s, u, HandOffPart(j, u, a))
    ensures HandOffPart(j, u, a).Does? ==> FiberInvariant.StepOk(j.s, u, HandOffPart(j, u, a).a)
  {
    var call, part := CounterPart(j, u, a), HandOffPart(j, u, a);
    if call.Silent? { OtherKeepsLinked(j, u, a); }
    else if a == Go { GoKeepsLinked(j, u); } else { EdgeKeepsLinked(j, u, a); }
    if call.Calls? {
      CalmNeverSteals(j, call.f);
      CalmStep(j.c, call.f, call.a);
    }
    if part.Does? {
      assert !part.a.Steal?;
      FiberInvariant.StepKeepsInvIff(j.s, u, part.a);
    }
    hide SlotWaiters.OnceInv, FiberInvariant.Inv, Linked, WaitSlots.Step, FiberMachine.Step;
  }

  lemma CalmStep(c: WaitSlots.Counter, f: nat, b: WaitSlots.Action)
    requires SlotWaiters.OnceInv(c) && SlotWaiters.Calm(c, f, b)
    ensures SlotWaiters.OnceInv(WaitSlots.Step(c, f, b))
  {
    SlotWaiters.StepKeepsOnce(c, f, b);
  }

  /** The hand-off's part of every calm run with right records is a run of the hand-off machine that keeps its
      invariant: what FiberTheorems proves of such runs holds of fibers and slots together. */
  lemma {:induction false} HandOffRun(j: Joint, sched: Schedule) returns (part: FiberMachine.Schedule)
    requires Inv(j) && StepsOk(j, sched)
    ensures Inv(Run(j, sched))
    ensures FiberInvariant.StepsOk(j.s, part) && Run(j, sched).s == FiberMachine.Run(j.s, part)
    decreases |sched|
  {
    part := [];
    assert FiberMachine.Run(j.s, part) == j.s;
    if sched != [] {
      var front, u, a := sched[..|sched| - 1], sched[|sched| - 1].0, sched[|sched| - 1].1;
      part := HandOffRun(j, front);
      var m := Run(j, front);
      StepKeepsInv(m, u, a);
      var does := HandOffPart(m, u, a);
      hide Inv, Step, FiberMachine.Step, FiberInvariant.StepOk, StepOk;
      if does.Does? {
        var longer := part + [(u, does.a)];
        assert longer[..|longer| - 1] == part && longer[|longer| - 1] == (u, does.a);
        part := longer;
      }
    }
  }

  /** From the start: the hand-off's part is reachable in the sense of FiberTheorems. */
  lemma CalmRunsAreReachable(slots: nat, fibers: nat, io: seq<bool>, sched: Schedule)
    requires StepsOk(Init(slots, fibers, io), sched)
    ensures FiberTheorems.Reachable(Run(Init(slots, fibers, io), sched).s)
    ensures Linked(Run(Init(slots, fibers, io), sched))
  {
    InitInv(slots, fibers, io);
    var part := HandOffRun(Init(slots, fibers, io), sched);
    assert FiberTheorems.ReachedBy(Run(Init(slots, fibers, io), sched).s, fibers, io, part);
  }
}
