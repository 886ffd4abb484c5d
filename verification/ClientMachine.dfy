/** Jobs and waits on one counter as a step machine: ScheduleJob, JobInfo::Execute and WaitForCounter
    around the wait-slot protocol.

    A client fiber works through a script of ScheduleJob and WaitForCounter calls on the counter:
    WaitForSingle, a Queue and a List are such scripts.  Worker fibers take queued jobs, in any order.
    `maker`, `op`, `before` and `since` are history. */
module ClientMachine {
  import WaitSlots
  import opened Jobs

  datatype Op =
    | Sched(prio: JobPriority, id: nat)
    | Wait(target: nat)

  datatype JobState =
    | Counted(client: nat)          // past ScheduleJob's Increment, not offered to its queue yet
    | Queued
    | HeldBy(worker: nat)           // dequeued, its body not begun
    | RunBy(worker: nat)            // its body runs
    | RanBy(worker: nat)            // its body has finished, before the Decrement
    | Done                          // past the Decrement
    | Lost                          // the queue was full: counted, never to run

  datatype Job = Job(id: nat, maker: nat, op: nat, state: JobState)

  datatype Proc =
    | Client(script: seq<Op>, pc: nat)                             // about to begin operation pc
    | Counting(script: seq<Op>, pc: nat, job: nat)                 // ScheduleJob, in Increment's scan
    | Offering(script: seq<Op>, pc: nat, job: nat)                 // ScheduleJob, before enqueue
    | Waiting(script: seq<Op>, pc: nat, since: nat)                // WaitForCounter, in AddWaitingFiber
    | Asleep(script: seq<Op>, pc: nat, since: nat, arm: nat)       // WaitForCounter, until woken
    | Threw(script: seq<Op>, pc: nat)                              // an exception ended the script
    | Idle
    | Holding(job: nat)
    | InBody(job: nat)
    | BodyDone(job: nat)
    | Dropping(job: nat)                                           // in Decrement's scan

  datatype State = State(
    ctr: WaitSlots.Counter,
    procs: seq<Proc>,
    jobs: seq<Job>,                 // every job that was counted, in that order
    before: seq<nat>)               // for each arming, how many jobs had been counted by then

  predicate Shaped(s: State) {
    WaitSlots.Shaped(s.ctr) && |s.procs| == |s.ctr.fibers|
  }

  function Init(slots: nat, scripts: seq<seq<Op>>, workers: nat): (s: State)
    ensures Shaped(s)
  {
    State(WaitSlots.Init(slots, |scripts| + workers),
          seq(|scripts|, f requires 0 <= f < |scripts| => Client(scripts[f], 0)) + seq(workers, f => Idle), [], [])
  }

  datatype Action =
    | Go                            // the next step of whatever the fiber is doing
    | Fail                          // enqueue finds the queue full
    | Take(job: nat)                // a queue yields this job to a worker

  function Set(s: State, f: nat, p: Proc): State
    requires f < |s.procs|
  {
    s.(procs := s.procs[f := p])
  }

  function SetJob(s: State, j: nat, st: JobState): State {
    if j < |s.jobs| then s.(jobs := s.jobs[j := s.jobs[j].(state := st)]) else s
  }

  /** A step on the counter. */
  function OnCounter(s: State, f: nat, a: WaitSlots.Action): (r: State)
    requires Shaped(s)
    ensures Shaped(r) && r.procs == s.procs && r.jobs == s.jobs
  {
    var c := WaitSlots.Step(s.ctr, f, a);
    KeepsFibers(s.ctr, f, a);
    s.(ctr := c, before := if |c.arms| > |s.ctr.arms| then s.before + [|s.jobs|] else s.before)
  }

  lemma KeepsFibers(c: WaitSlots.Counter, f: nat, a: WaitSlots.Action)
    requires WaitSlots.Shaped(c)
    ensures |WaitSlots.Step(c, f, a).fibers| == |c.fibers|
  {
  }

  /** A client at operation pc of its script. */
  function BeginOp(s: State, f: nat, script: seq<Op>, pc: nat): (r: State)
    requires Shaped(s) && f < |s.procs|
    ensures Shaped(r)
  {
    if pc >= |script| then s else
    match script[pc]
    case Sched(prio, id) =>
      if GetQueueByPriority(prio) == NoQueue then Set(s, f, Client(script, pc + 1))
      else
        Set(OnCounter(s, f, WaitSlots.Add(1)), f, Counting(script, pc, |s.jobs|))
          .(jobs := s.jobs + [Job(id, f, pc, Counted(f))])
    case Wait(target) =>
      if s.ctr.value == target then Set(s, f, Client(script, pc + 1))
      else Set(OnCounter(s, f, WaitSlots.Register(WaitSlots.Request(f, 0, target))), f, Waiting(script, pc, |s.jobs|))
  }

  function WaitingStep(s: State, f: nat, script: seq<Op>, pc: nat, since: nat): (r: State)
    requires Shaped(s) && f < |s.procs|
    ensures Shaped(r)
  {
    match s.ctr.fibers[f]
    case Answer(m, true) => Set(OnCounter(s, f, WaitSlots.Leave), f, Client(script, pc + 1))
    case Answer(m, false) => Set(OnCounter(s, f, WaitSlots.Leave), f, Asleep(script, pc, since, m))
    case SlotsFull => Set(OnCounter(s, f, WaitSlots.Leave), f, Threw(script, pc))
    case _ => OnCounter(s, f, WaitSlots.Go)
  }

  /** A step of fiber f; an action that does not fit where it stands changes nothing. */
  function Step(s: State, f: nat, a: Action): (r: State)
    requires Shaped(s)
    ensures Shaped(r)
  {
    if f >= |s.procs| then s else
    match (s.procs[f], a)
    case (Client(script, pc), Go) => BeginOp(s, f, script, pc)
    case (Counting(script, pc, j), Go) =>
      if s.ctr.fibers[f] == WaitSlots.Away then Set(s, f, Offering(script, pc, j)) else OnCounter(s, f, WaitSlots.Go)
    case (Offering(script, pc, j), Go) => SetJob(Set(s, f, Client(script, pc + 1)), j, Queued)
    case (Offering(script, pc, j), Fail) => SetJob(Set(s, f, Threw(script, pc)), j, Lost)
    case (Waiting(script, pc, since), Go) => WaitingStep(s, f, script, pc, since)
    case (Asleep(script, pc, _, m), Go) =>
      if m < |s.ctr.outcome| && s.ctr.outcome[m].Woken? then Set(s, f, Client(script, pc + 1)) else s
    case (Idle, Take(j)) =>
      if j < |s.jobs| && s.jobs[j].state == Queued then SetJob(Set(s, f, Holding(j)), j, HeldBy(f)) else s
    case (Holding(j), Go) => SetJob(Set(s, f, InBody(j)), j, RunBy(f))
    case (InBody(j), Go) => SetJob(Set(s, f, BodyDone(j)), j, RanBy(f))
    case (BodyDone(j), Go) => SetJob(Set(OnCounter(s, f, WaitSlots.Add(-1)), f, Dropping(j)), j, Done)
    case (Dropping(_), Go) =>
      if s.ctr.fibers[f] == WaitSlots.Away then Set(s, f, Idle) else OnCounter(s, f, WaitSlots.Go)
    case _ => s
  }

  type Schedule = seq<(nat, Action)>

  function Run(s: State, sched: Schedule): (r: State)
    requires Shaped(s)
    ensures Shaped(r)
    decreases |sched|
  {
    if sched == [] then s
    else Step(Run(s, sched[..|sched| - 1]), sched[|sched| - 1].0, sched[|sched| - 1].1)
  }
}
