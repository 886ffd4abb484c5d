/** The fiber hand-off as a step machine.

    Threads execute fibers; switching is an atomic change of which fiber a thread executes.  The
    per-thread records, the idle pool, the ready lists, the "stored" flags and the points at which a
    fiber can be left and resumed are those of the source.  Registrations are abstract (Registry): the
    slot protocol is proved to refine them (SlotWaiters.SlotsRefineRegistry).  Which job a queue yields
    and when a job waits, wakes somebody or ends is up to the schedule.  `place` and the `reg` numbers
    are history; `fault` records any use of a freed or null flag or of an index that is no fiber's. */
module FiberMachine {
  import opened ThreadLocals
  import Registry

  /** What follows CleanupPreviousFiber: the worker's loop, the rest of GetNextJob, or the job that waited. */
  datatype Point = ToLoop | ToTail | ToJob

  /** Where a fiber stands, or will continue when it is switched to. */
  datatype Stage =
    | Fresh                                       // its callback has not been entered
    | Loop                                        // FiberCallback_Worker, before GetNextJob
    | Scanning(k: nat)                            // GetNextJob, at ready entry k
    | PoolSwitch(next: nat)                       // GetNextJob, thread record updated, before the switch
    | PoolResume(cached: nat)                     // GetNextJob, after the switch; its `tls` is of thread `cached`
    | Tail                                        // GetNextJob, before the normal and low queues
    | Job                                         // running a job, or the main callback
    | HaveFlag(flag: nat)                         // WaitForCounter, flag allocated
    | Registered(flag: nat, reg: nat)             // AddWaitingFiber has armed a slot
    | Declined(flag: nat, reg: nat)               // AddWaitingFiber has returned false
    | Leaving(flag: nat, reg: nat)                // thread record updated, looking for an idle fiber
    | WaitSwitch(flag: nat, reg: nat, next: nat)  // before the switch
    | WaitResume(flag: nat, reg: nat)             // after the switch
    // CleanupPreviousFiber on the record of thread `record`
    | CleanRead(record: nat, destination: FiberDestination, after: Point)  // has loaded the destination
    | CleanStore(record: nat, destination: FiberDestination, previous: nat, stored: FlagPointer, after: Point)
                                                  // has loaded the fiber and the flag, before the store
    | CleanReset(record: nat, after: Point)       // before TLS::Cleanup
    | Exited

  /** What a thread executes. */
  datatype Exec =
    | BaseStart                     // its own base frame, before it has a fiber
    | BaseHolding(fiber: nat)       // has acquired a fiber, before the first switch
    | Running(fiber: nat)
    | Home(base: nat)               // has switched back, into the base frame of thread `base`

  datatype Entry = Entry(fiber: nat, flag: nat, reg: nat)

  datatype Tls = Tls(
    isIO: bool, current: nat, previous: nat, stored: FlagPointer, destination: FiberDestination, ready: seq<Entry>)

  datatype FlagState = FlagState(owner: nat, live: bool, value: bool)

  datatype Place =
    | InPool
    | ClaimedBy(thread: nat)        // acquired by a thread that has not switched to it yet
    | RunsOn(thread: nat)
    | TransitOn(thread: nat)        // left by the thread, its clean-up still to come
    | Parked
    | Gone

  datatype State = State(
    idle: seq<bool>,                // _idleFibers
    stage: seq<Stage>,
    returnTo: seq<nat>,             // _returnFiber: the thread whose thread fiber it is
    isMain: seq<bool>,              // its callback, entered or about to be, is FiberCallback_Main
    exec: seq<Exec>,
    tls: seq<Tls>,
    flags: seq<FlagState>,          // every flag ever allocated
    regs: seq<Registry.Registration>,
    place: seq<Place>,
    fault: bool)

  predicate Shaped(s: State) {
    |s.stage| == |s.idle| && |s.returnTo| == |s.idle| && |s.isMain| == |s.idle| && |s.place| == |s.idle|
    && |s.tls| == |s.exec|
  }

  /** The same number of fibers and of threads. */
  predicate SameCast(s: State, r: State) {
    Shaped(r) && |r.idle| == |s.idle| && |r.exec| == |s.exec|
  }

  /** Run: every fiber idle, no thread has one. */
  function Init(fibers: nat, io: seq<bool>): (s: State)
    ensures Shaped(s)
  {
    State(seq(fibers, f => true), seq(fibers, f => Fresh), seq(fibers, f => NO_FIBER), seq(fibers, f => false),
          seq(|io|, u => BaseStart),
          seq(|io|, u requires 0 <= u < |io| => Tls(io[u], NO_FIBER, NO_FIBER, Null, Nowhere, [])),
          [], [], seq(fibers, f => InPool), false)
  }

  datatype Action =
    | Claim(fiber: nat)   // FindFreeFiber's compare-exchange on this fiber
    | Next                // the step that follows from where the thread stands
    | GetJob              // a queue yields a job
    | NoJob               // the queues are empty
    | Finish              // the job, or the main callback, returns
    | Exit                // the worker loop sees the shutdown
    | Wait                // the job calls WaitForCounter, and the counter is not at the target
    | Register            // AddWaitingFiber arms a slot
    | Full                // AddWaitingFiber throws
    | Cancel              // AddWaitingFiber wins its own slot back and returns true
    | Steal(reg: nat)     // AddWaitingFiber wins the slot with another's registration in it, and returns true
    | Decline             // AddWaitingFiber returns false
    | Wake(reg: nat)      // a scan by the running job wins this registration

  function SetStage(s: State, f: nat, g: Stage): State
    requires f < |s.stage|
  {
    s.(stage := s.stage[f := g])
  }

  function SetPlace(s: State, f: nat, p: Place): State
  {
    if f < |s.place| then s.(place := s.place[f := p]) else s
  }

  /** Storing true in the idle pool; a fault if the index is none of a fiber. */
  function SetIdle(s: State, f: nat): State {
    if f < |s.idle| then s.(idle := s.idle[f := true]) else s.(fault := true)
  }

  /** Storing true in a flag; a fault if it has been freed. */
  function StoreFlag(s: State, p: FlagPointer): State {
    if p.Flag? && p.id < |s.flags| && s.flags[p.id].live then
      s.(flags := s.flags[p.id := s.flags[p.id].(value := true)])
    else s.(fault := true)
  }

  /** Deleting a flag; a fault if it has been freed. */
  function FreeFlag(s: State, g: nat): State {
    if g < |s.flags| && s.flags[g].live then s.(flags := s.flags[g := s.flags[g].(live := false)])
    else s.(fault := true)
  }

  function After(p: Point): Stage {
    match p
    case ToLoop => Loop
    case ToTail => Tail
    case ToJob => Job
  }

  /** Loading the destination in the record of thread c. */
  function BeginCleanup(s: State, f: nat, c: nat, p: Point): (r: State)
    requires Shaped(s) && f < |s.stage| && c < |s.tls|
    ensures SameCast(s, r)
  {
    var to := s.tls[c].destination;
    SetStage(s, f, if to == Nowhere then After(p) else CleanRead(c, to, p))
  }

  /** The store of CleanupPreviousFiber, with what it has loaded. */
  function HandOver(s: State, to: FiberDestination, previous: nat, stored: FlagPointer): (r: State)
    requires Shaped(s)
    ensures SameCast(s, r) && r.stage == s.stage && r.exec == s.exec && r.tls == s.tls
  {
    match to
    case Nowhere => s
    case Pool => SetPlace(SetIdle(s, previous), previous, InPool)
    case Waiting => SetPlace(StoreFlag(s, stored), previous, Parked)
  }

  /** TLS::Cleanup on the record of thread c. */
  function ResetRecord(s: State, c: nat): (r: State)
    requires Shaped(s) && c < |s.tls|
    ensures SameCast(s, r) && r.stage == s.stage && r.exec == s.exec
  {
    s.(tls := s.tls[c := s.tls[c].(previous := NO_FIBER, destination := Nowhere, stored := Null)])
  }

  /** All of CleanupPreviousFiber on the record of thread c, when nothing comes in between. */
  function Cleanup(s: State, c: nat): (r: State)
    requires Shaped(s) && c < |s.tls|
    ensures SameCast(s, r) && r.stage == s.stage && r.exec == s.exec
  {
    var t := s.tls[c];
    if t.destination == Nowhere then s else ResetRecord(HandOver(s, t.destination, t.previous, t.stored), c)
  }

  /** SwitchTo by thread u: from what it executes to fiber g. */
  function SwitchTo(s: State, u: nat, g: nat): (r: State)
    requires Shaped(s) && u < |s.exec|
    ensures SameCast(s, r) && r.stage == s.stage
  {
    if g >= |s.returnTo| then s
    else SetPlace(s.(exec := s.exec[u := Running(g)], returnTo := s.returnTo[g := u]), g, RunsOn(u))
  }

  /** SwitchBack by thread u, executing fiber f. */
  function SwitchBack(s: State, u: nat, f: nat): (r: State)
    requires Shaped(s) && u < |s.exec| && f < |s.stage|
    ensures SameCast(s, r)
  {
    SetPlace(SetStage(s, f, Exited), f, Gone).(exec := s.exec[u := Home(s.returnTo[f])])
  }

  function WithTls(s: State, u: nat, t: Tls): State
    requires u < |s.tls|
  {
    s.(tls := s.tls[u := t])
  }

  /** GetNextJob at ready entry k of its thread. */
  function CheckReady(s: State, u: nat, f: nat, k: nat): (r: State)
    requires Shaped(s) && u < |s.exec| && f < |s.stage|
    ensures SameCast(s, r)
  {
    var t := s.tls[u];
    if k >= |t.ready| then SetStage(s, f, Tail)
    else
      var e := t.ready[k];
      if e.flag >= |s.flags| || !s.flags[e.flag].live then s.(fault := true)
      else if !s.flags[e.flag].value then SetStage(s, f, Scanning(k + 1))
      else
        var r := SetPlace(SetStage(FreeFlag(s, e.flag), f, PoolSwitch(e.fiber)), e.fiber, ClaimedBy(u));
        WithTls(r, u, t.(ready := t.ready[..k] + t.ready[k + 1..],
                         previous := t.current, destination := Pool, current := e.fiber))
  }

  /** The next step of thread u, executing fiber f. */
  function NextOf(s: State, u: nat, f: nat): (r: State)
    requires Shaped(s) && u < |s.exec| && f < |s.stage|
    ensures SameCast(s, r)
  {
    match s.stage[f]
    case Fresh => if s.isMain[f] then SetStage(s, f, Job) else BeginCleanup(s, f, u, ToLoop)
    case Loop => if s.tls[u].isIO then s else SetStage(s, f, Scanning(0))
    case Scanning(k) => CheckReady(s, u, f, k)
    case PoolSwitch(g) => SetPlace(SetStage(SwitchTo(s, u, g), f, PoolResume(u)), f, TransitOn(u))
    case PoolResume(c) => if c < |s.tls| then BeginCleanup(s, f, c, ToTail) else s
    case Declined(g, r) =>
      SetStage(WithTls(s, u, s.tls[u].(previous := s.tls[u].current, destination := Waiting, stored := Flag(g))),
               f, Leaving(g, r))
    case WaitSwitch(g, r, i) => SetPlace(SetStage(SwitchTo(s, u, i), f, WaitResume(g, r)), f, TransitOn(u))
    case WaitResume(_, _) => BeginCleanup(s, f, u, ToJob)
    case CleanRead(c, to, p) =>
      if c < |s.tls| then SetStage(s, f, CleanStore(c, to, s.tls[c].previous, s.tls[c].stored, p)) else s
    case CleanStore(c, to, i, g, p) => SetStage(HandOver(s, to, i, g), f, CleanReset(c, p))
    case CleanReset(c, p) => if c < |s.tls| then SetStage(ResetRecord(s, c), f, After(p)) else s
    case _ => s
  }

  function ClaimFor(s: State, u: nat, i: nat): (r: State)
    requires Shaped(s) && u < |s.exec| && i < |s.idle|
    ensures SameCast(s, r)
  {
    SetPlace(WithTls(s, u, s.tls[u].(current := i)).(idle := s.idle[i := false]), i, ClaimedBy(u))
  }

  /** The slot of registration `own` has been freed and armed again, with r (SlotWaiters.SlotsRefineRegistry). */
  predicate MaySteal(s: State, own: nat, r: nat) {
    r != own && own < |s.regs| && s.regs[own].status != Registry.Open
    && Registry.Allowed(s.regs, Registry.WasCancelled(r))
  }

  /** A step of thread u while it executes fiber f. */
  function FiberStep(s: State, u: nat, f: nat, a: Action): (r: State)
    requires Shaped(s) && u < |s.exec| && f < |s.stage|
    ensures SameCast(s, r)
  {
    match (a, s.stage[f])
    case (Next, _) => NextOf(s, u, f)
    case (Claim(i), Leaving(g, r)) =>
      if i < |s.idle| && s.idle[i] then SetStage(ClaimFor(s, u, i), f, WaitSwitch(g, r, i)) else s
    case (GetJob, Loop) => SetStage(s, f, Job)
    case (GetJob, Tail) => SetStage(s, f, Job)
    case (NoJob, Tail) => SetStage(s, f, Loop)
    case (Finish, Job) => if s.isMain[f] then SwitchBack(s, u, f) else SetStage(s, f, Loop)
    case (Exit, Loop) => SwitchBack(s, u, f)
    case (Wait, Job) => SetStage(s, f, HaveFlag(|s.flags|)).(flags := s.flags + [FlagState(f, true, false)])
    case (Register, HaveFlag(g)) =>
      SetStage(s, f, Registered(g, |s.regs|)).(regs := Registry.Apply(s.regs, Registry.Opened(s.tls[u].current, g)))
    case (Full, HaveFlag(_)) => SetStage(s, f, Job)
    case (Cancel, Registered(g, r)) =>
      if Registry.Allowed(s.regs, Registry.WasCancelled(r)) then
        SetStage(FreeFlag(s, g), f, Job).(regs := Registry.Apply(s.regs, Registry.WasCancelled(r)))
      else s
    case (Steal(r), Registered(g, own)) =>
      if MaySteal(s, own, r) then
        SetStage(FreeFlag(s, g), f, Job).(regs := Registry.Apply(s.regs, Registry.WasCancelled(r)))
      else s
    case (Decline, Registered(g, r)) => SetStage(s, f, Declined(g, r))
    case (Wake(r), Job) =>
      if Registry.Allowed(s.regs, Registry.WasWoken(r)) then
        WithTls(s, u, s.tls[u].(ready := s.tls[u].ready + [Entry(s.regs[r].fiber, s.regs[r].flag, r)]))
          .(regs := Registry.Apply(s.regs, Registry.WasWoken(r)))
      else s
    case _ => s
  }

  /** A step of thread u; an action that does not fit where it stands changes nothing. */
  function Step(s: State, u: nat, a: Action): (r: State)
    requires Shaped(s)
    ensures SameCast(s, r)
  {
    if u >= |s.exec| then s else
    match s.exec[u]
    case BaseStart =>
      if a.Claim? && a.fiber < |s.idle| && s.idle[a.fiber] then
        var r := ClaimFor(s, u, a.fiber);
        r.(exec := r.exec[u := BaseHolding(a.fiber)])
      else s
    case BaseHolding(i) =>
      if a == Next && i < |s.isMain| then
        SwitchTo(if u == 0 && s.stage[i].Fresh? then s.(isMain := s.isMain[i := true]) else s, u, i)
      else s
    case Running(f) => if f < |s.stage| then FiberStep(s, u, f, a) else s
    case Home(_) => s
  }

  type Schedule = seq<(nat, Action)>

  function Run(s: State, sched: Schedule): (r: State)
    requires Shaped(s)
    ensures SameCast(s, r)
    decreases |sched|
  {
    if sched == [] then s
    else Step(Run(s, sched[..|sched| - 1]), sched[|sched| - 1].0, sched[|sched| - 1].1)
  }
}
