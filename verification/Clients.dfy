/** Jobs, queues and lists as the objects they are.  What a queue or list asks of the scheduler is recorded;
    on its counter it amounts to the script that ClientMachine executes among all other fibers. */
module Clients {
  import opened Jobs
  import opened ThreadLocals
  import opened CounterObject
  import opened ManagerObject
  import opened ClientMachine
  import opened ClientPrograms
  import WaitSlots
  import SlotSolo

  /** A call to the scheduler, and whether it returned or threw. */
  datatype Call =
    | ScheduleCall(prio: JobPriority, job: JobInfo, ok: bool)
    | WaitCall(counter: BaseCounter?, target: nat, ok: bool)

  /** The calls a client has made to the scheduler.  Either may throw. */
  class Calls {
    var log: seq<Call>

    method ScheduleJob(prio: JobPriority, job: JobInfo) returns (ok: bool)
      modifies this
      ensures log == old(log) + [ScheduleCall(prio, job, ok)]
    {
      ok := *;
      log := log + [ScheduleCall(prio, job, ok)];
    }

    method WaitForCounter(counter: BaseCounter?, target: nat) returns (ok: bool)
      modifies this
      ensures log == old(log) + [WaitCall(counter, target, ok)]
    {
      ok := *;
      log := log + [WaitCall(counter, target, ok)];
    }
  }

  /** What a call means for counter c. */
  function OpOn(c: BaseCounter, call: Call): seq<Op> {
    match call
    case ScheduleCall(prio, job, _) => if job.counter == c then [Sched(prio, job.id)] else []
    case WaitCall(counter, target, _) => if counter == c then [Wait(target)] else []
  }

  /** The script of ClientMachine that calls amount to on counter c. */
  function ScriptOn(c: BaseCounter, log: seq<Call>): seq<Op> {
    if log == [] then [] else OpOn(c, log[0]) + ScriptOn(c, log[1..])
  }

  lemma {:induction false} ScriptOfSum(c: BaseCounter, a: seq<Call>, b: seq<Call>)
    ensures ScriptOn(c, a + b) == ScriptOn(c, a) + ScriptOn(c, b)
  {
    if a == [] {
      assert a + b == b;
    } else {
      ScriptOfSum(c, a[1..], b);
      assert (a + b)[1..] == a[1..] + b && (a + b)[0] == a[0];
      hide OpOn;
    }
  }

  /** Priorities and identities of jobs. */
  function Items(jobs: seq<(JobPriority, JobInfo)>): (r: seq<(JobPriority, nat)>)
    ensures |r| == |jobs|
  {
    seq(|jobs|, i requires 0 <= i < |jobs| => (jobs[i].0, jobs[i].1.id))
  }

  datatype Stepped = Empty | Ran | ScheduleThrew | WaitThrew

  class Queue {
    const counter: BaseCounter
    const defaultPriority: JobPriority
    var queue: seq<(JobPriority, JobInfo)>

    /** Every queued job has the queue's counter. */
    ghost predicate Valid()
      reads this
    {
      forall i: nat | i < |queue| :: queue[i].1.counter == counter
    }

    constructor (defaultPriority: JobPriority, counter: BaseCounter)
      ensures Valid() && this.defaultPriority == defaultPriority && this.counter == counter && queue == []
    {
      this.defaultPriority := defaultPriority;
      this.counter := counter;
      queue := [];
    }

    method Add(prio: JobPriority, job: JobInfo)
      requires Valid()
      modifies this
      ensures Valid() && queue == old(queue) + [(prio, job.(counter := counter))]
    {
      queue := queue + [(prio, job.(counter := counter))];
    }

    /** The operators +=. */
    method AddDefault(job: JobInfo)
      requires Valid()
      modifies this
      ensures Valid() && queue == old(queue) + [(defaultPriority, job.(counter := counter))]
    {
      Add(defaultPriority, job);
    }

    /** The first job is scheduled and waited for; it leaves the queue only if neither throws. */
    method Step(manager: Calls) returns (r: Stepped)
      requires Valid()
      modifies this, manager
      ensures Valid() && (r == Empty <==> old(queue) == [])
      ensures queue == if r == Ran then old(queue)[1..] else old(queue)
      ensures manager.log == old(manager.log) + match r
                case Empty => []
                case Ran => [ScheduleCall(old(queue)[0].0, old(queue)[0].1, true), WaitCall(counter, 0, true)]
                case ScheduleThrew => [ScheduleCall(old(queue)[0].0, old(queue)[0].1, false)]
                case WaitThrew => [ScheduleCall(old(queue)[0].0, old(queue)[0].1, true), WaitCall(counter, 0, false)]
    {
      if queue == [] {
        return Empty;
      }
      var (prio, job) := queue[0];
      var ok := manager.ScheduleJob(prio, job);
      if !ok {
        return ScheduleThrew;
      }
      ok := manager.WaitForCounter(counter, 0);
      if !ok {
        return WaitThrew;
      }
      queue := queue[1..];
      return Ran;
    }

    /** Terminates; returns with an empty queue, having made exactly the calls of QueueCalls, or throws with the
        job at which it stopped still first in the queue. */
    method Execute(manager: Calls) returns (r: Stepped)
      requires Valid()
      modifies this, manager
      ensures Valid() && r != Ran && |queue| <= |old(queue)| && queue == old(queue)[|old(queue)| - |queue|..]
      ensures r == Empty <==> queue == []
      ensures manager.log == old(manager.log) + QueueCalls(counter, old(queue)[..|old(queue)| - |queue|])
                + match r
                  case Empty => []
                  case Ran => []
                  case ScheduleThrew => [ScheduleCall(queue[0].0, queue[0].1, false)]
                  case WaitThrew => [ScheduleCall(queue[0].0, queue[0].1, true), WaitCall(counter, 0, false)]
    {
      ghost var all := queue;
      ghost var done: nat := 0;
      while true
        invariant done <= |all| && queue == all[done..] && Valid()
        invariant manager.log == old(manager.log) + QueueCalls(counter, all[..done])
        decreases |queue|
      {
        r := Step(manager);
        if r != Ran {
          return;
        }
        assert all[..done + 1][..done] == all[..done];
        done := done + 1;
      }
    }
  }

  /** Each of the jobs is scheduled and waited for before the next, and nothing throws. */
  function QueueCalls(counter: BaseCounter, jobs: seq<(JobPriority, JobInfo)>): seq<Call> {
    if jobs == [] then []
    else
      var (prio, job) := jobs[|jobs| - 1];
      QueueCalls(counter, jobs[..|jobs| - 1]) + [ScheduleCall(prio, job, true), WaitCall(counter, 0, true)]
  }

  /** What Queue.Execute asks of the scheduler amounts to QueueScript on the queue's counter, for as many of its
      jobs as it gets to, and says nothing to any other counter. */
  lemma {:induction false} QueueCallsAreQueueScript(c: BaseCounter, jobs: seq<(JobPriority, JobInfo)>)
    requires forall i: nat | i < |jobs| :: jobs[i].1.counter == c
    ensures ScriptOn(c, QueueCalls(c, jobs)) == QueueScript(Items(jobs))
    ensures forall d: BaseCounter | d != c :: ScriptOn(d, QueueCalls(c, jobs)) == []
    ensures |QueueCalls(c, jobs)| == 2 * |jobs|
  {
    if jobs != [] {
      var n := |jobs| - 1;
      var front, schedule, wait := jobs[..n], ScheduleCall(jobs[n].0, jobs[n].1, true), WaitCall(c, 0, true);
      QueueCallsAreQueueScript(c, front);
      forall d: BaseCounter
        ensures ScriptOn(d, QueueCalls(c, jobs))
             == ScriptOn(d, QueueCalls(c, front)) + OpOn(d, schedule) + OpOn(d, wait)
      {
        ScriptOfSum(d, QueueCalls(c, front), [schedule, wait]);
        ScriptOfTwo(d, schedule, wait);
      }
      ItemsGrow(jobs, n);
      QueueScriptGrows(Items(jobs), n);
      assert jobs[..n + 1] == jobs && Items(jobs)[..n + 1] == Items(jobs);
    }
  }

  lemma ScriptOfTwo(c: BaseCounter, a: Call, b: Call)
    ensures ScriptOn(c, [a, b]) == OpOn(c, a) + OpOn(c, b)
  {
    assert [a, b][1..] == [b];
    assert ScriptOn(c, [b]) == OpOn(c, b);
  }

  lemma ItemsGrow(jobs: seq<(JobPriority, JobInfo)>, k: nat)
    requires k < |jobs|
    ensures Items(jobs[..k]) == Items(jobs)[..k] && Items(jobs[..k + 1]) == Items(jobs)[..k + 1]
    ensures Items(jobs)[k] == (jobs[k].0, jobs[k].1.id)
  {
  }

  lemma {:induction false} QueueScriptGrows(items: seq<(JobPriority, nat)>, k: nat)
    requires k < |items|
    ensures QueueScript(items[..k + 1]) == QueueScript(items[..k]) + [Sched(items[k].0, items[k].1), Wait(0)]
  {
    if k > 0 {
      QueueScriptGrows(items[1..], k - 1);
      assert items[..k + 1][1..] == items[1..][..k];
      assert items[..k][1..] == items[1..][..k - 1];
    } else {
      assert items[..1] == [items[0]];
      assert items[..1][1..] == [];
    }
  }

  class List {
    const counter: BaseCounter
    const defaultPriority: JobPriority

    constructor (defaultPriority: JobPriority, counter: BaseCounter)
      ensures this.defaultPriority == defaultPriority && this.counter == counter
    {
      this.defaultPriority := defaultPriority;
      this.counter := counter;
    }

    /** Adding schedules at once, with the list's counter, and throws if that throws. */
    method Add(prio: JobPriority, job: JobInfo, manager: Calls) returns (ok: bool)
      modifies manager
      ensures manager.log == old(manager.log) + [ScheduleCall(prio, job.(counter := counter), ok)]
    {
      ok := manager.ScheduleJob(prio, job.(counter := counter));
    }

    method Wait(targetValue: nat, manager: Calls) returns (ok: bool)
      modifies manager
      ensures manager.log == old(manager.log) + [WaitCall(counter, targetValue, ok)]
    {
      ok := manager.WaitForCounter(counter, targetValue);
    }
  }

  /** The calls of List.Add for these jobs, none of which throws. */
  function AddCalls(counter: BaseCounter, jobs: seq<(JobPriority, JobInfo)>): seq<Call> {
    if jobs == [] then []
    else [ScheduleCall(jobs[0].0, jobs[0].1.(counter := counter), true)] + AddCalls(counter, jobs[1..])
  }

  lemma {:induction false} AddsAreScheds(c: BaseCounter, jobs: seq<(JobPriority, JobInfo)>)
    ensures ScriptOn(c, AddCalls(c, jobs)) == seq(|jobs|, i requires 0 <= i < |jobs| => Sched(jobs[i].0, jobs[i].1.id))
  {
    if jobs != [] {
      AddsAreScheds(c, jobs[1..]);
      var call := ScheduleCall(jobs[0].0, jobs[0].1.(counter := c), true);
      assert AddCalls(c, jobs)[0] == call && AddCalls(c, jobs)[1..] == AddCalls(c, jobs[1..]);
      assert ScriptOn(c, AddCalls(c, jobs)) == [Sched(jobs[0].0, jobs[0].1.id)] + ScriptOn(c, AddCalls(c, jobs[1..]));
    }
  }

  /** Adding jobs to a list and then waiting for 0 amounts, on the list's counter, to ListScript, whatever
      counters the jobs had. */
  lemma ListCallsAreListScript(c: BaseCounter, jobs: seq<(JobPriority, JobInfo)>, ok: bool)
    ensures ScriptOn(c, AddCalls(c, jobs) + [WaitCall(c, 0, ok)]) == ListScript(Items(jobs))
  {
    AddsAreScheds(c, jobs);
    ScriptOfSum(c, AddCalls(c, jobs), [WaitCall(c, 0, ok)]);
    assert ScriptOn(c, [WaitCall(c, 0, ok)]) == [Wait(0)];
  }

  /** Manager::WaitForSingle: one job on a counter of its own, with one slot, and a wait for 0. */
  method WaitForSingle(prio: JobPriority, info: JobInfo, manager: Calls) returns (r: Stepped, ctr: BaseCounter)
    modifies manager
    ensures fresh(ctr) && ctr.Valid() && ctr.counter == 0 && ctr.waitingFibers.Length == 1
    ensures r != Empty
    ensures manager.log == old(manager.log) + match r
              case Empty => []
              case Ran => [ScheduleCall(prio, info.(counter := ctr), true), WaitCall(ctr, 0, true)]
              case ScheduleThrew => [ScheduleCall(prio, info.(counter := ctr), false)]
              case WaitThrew => [ScheduleCall(prio, info.(counter := ctr), true), WaitCall(ctr, 0, false)]
  {
    ctr := new BaseCounter(1);
    var ok := manager.ScheduleJob(prio, info.(counter := ctr));
    if !ok {
      return ScheduleThrew, ctr;
    }
    ok := manager.WaitForCounter(ctr, 0);
    r := if ok then Ran else WaitThrew;
  }

  /** Its calls amount, on that counter, to SingleScript. */
  lemma SingleCallsAreSingleScript(c: BaseCounter, prio: JobPriority, info: JobInfo, ok: bool)
    ensures ScriptOn(c, [ScheduleCall(prio, info.(counter := c), true), WaitCall(c, 0, ok)])
         == SingleScript(prio, info.id)
  {
    ScriptOfTwo(c, ScheduleCall(prio, info.(counter := c), true), WaitCall(c, 0, ok));
  }

  /** Bodies that have been run, each with the value its job's counter had at the time. */
  class Bodies {
    var runs: seq<(nat, nat)>

    method Call(id: nat, counter: BaseCounter?)
      modifies this
      ensures runs == old(runs) + [(id, if counter == null then 0 else counter.counter)]
    {
      runs := runs + [(id, if counter == null then 0 else counter.counter)];
    }
  }

  /** JobInfo::Execute: the body runs while the counter still counts the job, which is then counted down,
      and exactly the waiters of the new value are woken onto the executing thread. */
  method ExecuteJob(job: JobInfo, isNull: bool, tls: TLS, bodies: Bodies)
    requires job.counter != null ==> job.counter.Valid()
    modifies bodies, tls`readyFibers
    modifies if job.counter == null then {} else {job.counter}
    modifies if job.counter == null then {} else {job.counter.waitingFibers}
    modifies if job.counter == null then {} else {job.counter.freeWaitingSlots}
    ensures bodies.runs == old(bodies.runs)
              + if isNull then [] else [(job.id, if job.counter == null then 0 else old(job.counter.counter))]
    ensures job.counter == null ==> tls.readyFibers == old(tls.readyFibers)
    ensures job.counter != null ==>
              var c := job.counter;
              var v := (old(c.counter) - 1) % 0x1_0000_0000;
              && c.Valid() && c.counter == v
              && c.waitingFibers[..] == SlotSolo.ScannedSlots(
                   old(c.waitingFibers[..]), old(c.freeWaitingSlots[..]), v, 0)
              && c.freeWaitingSlots[..] == SlotSolo.ScannedFree(
                   old(c.waitingFibers[..]), old(c.freeWaitingSlots[..]), v, 0)
              && tls.readyFibers == old(tls.readyFibers) + SlotSolo.ScanWakes(
                   old(c.waitingFibers[..]), old(c.freeWaitingSlots[..]), v, 0)
  {
    if !isNull {
      bodies.Call(job.id, job.counter);
    }
    if job.counter != null {
      var prev := job.counter.Decrement(1, tls);
    }
  }
}
