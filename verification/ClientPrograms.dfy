/** The scheduler's own clients: WaitForSingle, Queue and List, as scripts. */
module ClientPrograms {
  import WaitSlots
  import SlotTheorems
  import SlotWaiters
  import opened Jobs
  import opened ClientMachine
  import opened ClientInvariant
  import opened ClientBarrier

  /** WaitForSingle(prio, job), on its own counter. */
  function SingleScript(prio: JobPriority, id: nat): seq<Op> {
    [Sched(prio, id), Wait(0)]
  }

  /** Queue::Execute: each job scheduled, then waited for. */
  function QueueScript(items: seq<(JobPriority, nat)>): (r: seq<Op>)
    ensures |r| == 2 * |items|
  {
    if items == [] then [] else [Sched(items[0].0, items[0].1), Wait(0)] + QueueScript(items[1..])
  }

  lemma {:induction false} QueueScriptAt(items: seq<(JobPriority, nat)>, i: nat)
    requires i < |items|
    ensures QueueScript(items)[2 * i] == Sched(items[i].0, items[i].1) && QueueScript(items)[2 * i + 1] == Wait(0)
  {
    if i > 0 {
      QueueScriptAt(items[1..], i - 1);
    }
  }

  /** List: every job added, then one Wait(0). */
  function ListScript(items: seq<(JobPriority, nat)>): (r: seq<Op>)
    ensures |r| == |items| + 1
  {
    seq(|items|, i requires 0 <= i < |items| => Sched(items[i].0, items[i].1)) + [Wait(0)]
  }

  lemma CastStays(s: State, f: nat, a: Action, g: nat)
    requires Inv(s) && g < |s.procs|
    ensures g < |Step(s, f, a).procs| && (IsClient(Step(s, f, a).procs[g]) <==> IsClient(s.procs[g]))
    ensures IsClient(s.procs[g]) ==> Step(s, f, a).procs[g].script == s.procs[g].script
  {
    if f < |s.procs| {
      StepShifts(s, f, a);
      hide Step, Inv;
    }
  }

  /** Only the scripts given at the start are ever executed, each by its own fiber. */
  lemma {:induction false} RunKeepsCast(s: State, sched: Schedule, g: nat)
    requires Inv(s) && g < |s.procs|
    ensures var r := Run(s, sched);
            && g < |r.procs| && (IsClient(r.procs[g]) <==> IsClient(s.procs[g]))
            && (IsClient(s.procs[g]) ==> r.procs[g].script == s.procs[g].script)
    decreases |sched|
  {
    assert Shaped(s);
    hide Step, Inv;
    if sched != [] {
      var front := sched[..|sched| - 1];
      RunKeepsInv(s, front);
      RunKeepsCast(s, front, g);
      CastStays(Run(s, front), sched[|sched| - 1].0, sched[|sched| - 1].1, g);
    }
  }

  lemma {:induction false} RunKeepsSize(s: State, sched: Schedule)
    requires Inv(s)
    ensures |Run(s, sched).procs| == |s.procs|
    decreases |sched|
  {
    assert Shaped(s);
    hide Step, Inv;
    if sched != [] {
      var front := sched[..|sched| - 1];
      RunKeepsInv(s, front);
      RunKeepsSize(s, front);
      StepKeepsSize(Run(s, front), sched[|sched| - 1].0, sched[|sched| - 1].1);
    }
  }

  lemma StepKeepsSize(s: State, f: nat, a: Action)
    requires Inv(s)
    ensures |Step(s, f, a).procs| == |s.procs|
  {
    if f < |s.procs| {
      StepShifts(s, f, a);
      hide Step, Inv;
    }
  }

  /** With one client, all jobs are that client's. */
  lemma SoleClient(slots: nat, script: seq<Op>, workers: nat, sched: Schedule)
    ensures var s := Run(Init(slots, [script], workers), sched);
            && |s.procs| == 1 + workers && IsClient(s.procs[0]) && s.procs[0].script == script
            && forall g: nat | 0 < g < |s.procs| :: !IsClient(s.procs[g])
  {
    var s0 := Init(slots, [script], workers);
    InitInv(slots, [script], workers);
    RunKeepsSize(s0, sched);
    RunKeepsCast(s0, sched, 0);
    forall g: nat | 0 < g < |s0.procs| ensures !IsClient(Run(s0, sched).procs[g]) { RunKeepsCast(s0, sched, g); }
    hide Run, Inv;
  }

  // ---- Queue

  /** With clean armings, Execute makes the jobs in insertion order, and when one is counted all before it
      have finished, whatever their priorities. */
  lemma QueueRunsConsecutively(slots: nat, items: seq<(JobPriority, nat)>, workers: nat,
                               sched: Schedule, j: nat, k: nat)
    requires var s := Run(Init(slots, [QueueScript(items)], workers), sched);
             && CleanRun(Init(slots, [QueueScript(items)], workers), sched)
             && BoundedRun(Init(slots, [QueueScript(items)], workers), sched)
             && j < k < |s.jobs|
    ensures var s := Run(Init(slots, [QueueScript(items)], workers), sched);
            && s.jobs[j].state == Done
            && exists a: nat, b: nat ::
                 a < b < |items| && s.jobs[j].op == 2 * a && s.jobs[k].op == 2 * b
                 && s.jobs[j].id == items[a].1 && s.jobs[k].id == items[b].1
  {
    var script := QueueScript(items);
    var s0 := Init(slots, [script], workers);
    InitGood(slots, [script], workers);
    RunKeepsGood(s0, sched);
    SoleClient(slots, script, workers, sched);
    hide Good, Run, Init, CleanRun, QueueScript;
    QueuePair(Run(s0, sched), items, j, k);
  }

  lemma {:induction false} QueuePair(s: State, items: seq<(JobPriority, nat)>, j: nat, k: nat)
    requires Good(s) && j < k < |s.jobs|
    requires |s.procs| > 0 && IsClient(s.procs[0]) && s.procs[0].script == QueueScript(items)
    requires forall g: nat | 0 < g < |s.procs| :: !IsClient(s.procs[g])
    ensures s.jobs[j].state == Done
    ensures exists a: nat, b: nat ::
              a < b < |items| && s.jobs[j].op == 2 * a && s.jobs[k].op == 2 * b
              && s.jobs[j].id == items[a].1 && s.jobs[k].id == items[b].1
  {
    assert MadeOk(s, j) && MadeOk(s, k) && OrderOk(s, j, k) && BarrierOk(s, j);
    hide Good, QueueScript;
    var a := QueueOp(items, s.jobs[j].op);
    var b := QueueOp(items, s.jobs[k].op);
    QueueScriptAt(items, a);
    assert s.jobs[j].op < 2 * a + 1 < s.procs[0].pc;
    assert a < b < |items|;
  }

  lemma {:induction false} QueueOp(items: seq<(JobPriority, nat)>, o: nat) returns (a: nat)
    requires o < |QueueScript(items)| && QueueScript(items)[o].Sched?
    ensures a < |items| && o == 2 * a && QueueScript(items)[o] == Sched(items[a].0, items[a].1)
  {
    a := o / 2;
    QueueScriptAt(items, a);
  }

  /** When Execute has returned, every job of the queue has run and been counted down. */
  lemma QueueFinishesAll(slots: nat, items: seq<(JobPriority, nat)>, workers: nat, sched: Schedule, i: nat)
    requires var s := Run(Init(slots, [QueueScript(items)], workers), sched);
             && CleanRun(Init(slots, [QueueScript(items)], workers), sched)
             && BoundedRun(Init(slots, [QueueScript(items)], workers), sched)
             && |s.procs| > 0 && s.procs[0] == Client(QueueScript(items), 2 * |items|)
             && i < |items| && !items[i].0.Unknown?
    ensures var s := Run(Init(slots, [QueueScript(items)], workers), sched);
            exists j: nat :: Made(s, j, 0, 2 * i) && s.jobs[j].id == items[i].1 && s.jobs[j].state == Done
  {
    QueueScriptAt(items, i);
    WaitForZeroIsABarrier(slots, [QueueScript(items)], workers, sched, 0, 2 * i, 2 * i + 1);
  }

  // ---- List

  /** When Wait(0) has returned, every job added to the list has finished. */
  lemma ListWaitIsABarrier(slots: nat, items: seq<(JobPriority, nat)>, workers: nat, sched: Schedule, i: nat)
    requires var s := Run(Init(slots, [ListScript(items)], workers), sched);
             && CleanRun(Init(slots, [ListScript(items)], workers), sched)
             && BoundedRun(Init(slots, [ListScript(items)], workers), sched)
             && |s.procs| > 0 && s.procs[0] == Client(ListScript(items), |items| + 1)
             && i < |items| && !items[i].0.Unknown?
    ensures var s := Run(Init(slots, [ListScript(items)], workers), sched);
            exists j: nat :: Made(s, j, 0, i) && s.jobs[j].id == items[i].1 && s.jobs[j].state == Done
  {
    WaitForZeroIsABarrier(slots, [ListScript(items)], workers, sched, 0, i, |items|);
  }

  // ---- WaitForSingle

  /** The value a scan carries. */
  predicate CarriesZero(l: WaitSlots.Local) {
    WaitSlots.Scanning(l) && l.value == 0
  }

  /** A scan with value 0 is that of the one job's Decrement. */
  ghost predicate ZeroScansAreLast(s: State) {
    forall g: nat | g < |s.ctr.fibers| && CarriesZero(s.ctr.fibers[g]) :: |s.jobs| > 0 && s.jobs[0].state == Done
  }

  ghost predicate SingleInv(s: State, prio: JobPriority, id: nat) {
    && Good(s) && ZeroScansAreLast(s)
    && |s.procs| > 0 && IsClient(s.procs[0]) && s.procs[0].script == SingleScript(prio, id)
    && (forall g: nat | 0 < g < |s.procs| :: !IsClient(s.procs[g]))
  }

  lemma FirstTwo(s: State)
    requires Good(s) && |s.jobs| > 1
    ensures MadeOk(s, 0) && MadeOk(s, 1) && OrderOk(s, 0, 1)
  {
  }

  lemma AtMostOneJob(s: State, prio: JobPriority, id: nat)
    requires SingleInv(s, prio, id)
    ensures |s.jobs| <= 1 && (s.procs[0].Client? && s.procs[0].pc == 0 ==> s.jobs == [])
  {
    if |s.jobs| > 0 { assert MadeOk(s, 0); }
    if |s.jobs| > 1 { FirstTwo(s); }
  }

  /** Its arming is clean without any hypothesis: only the job's own scan carries 0, and then the counter
      is 0 for good. */
  lemma SingleIsClean(s: State, f: nat, a: Action, prio: JobPriority, id: nat)
    requires SingleInv(s, prio, id)
    ensures Clean(s, f, a)
  {
    if f < |s.procs| && s.procs[f].Waiting? && a == Go && s.ctr.fibers[f].Arming?
       && s.ctr.value != s.ctr.fibers[f].req.target {
      assert f == 0 && ProcOk(s, 0) && s.ctr.fibers[0].req.target == 0;
      AtMostOneJob(s, prio, id);
      forall g: nat | g < |s.ctr.fibers| && g != f ensures !SlotWaiters.Threat(s.ctr.fibers[g], s.ctr.fibers[f].i, 0) {
        assert ProcOk(s, g);
        if CarriesZero(s.ctr.fibers[g]) { NoneOutstanding(s.jobs); }
      }
    }
  }

  lemma ScanKeepsValue(c: WaitSlots.Counter, f: nat)
    requires WaitSlots.Shaped(c) && f < |c.fibers|
    ensures var r := WaitSlots.Step(c, f, WaitSlots.Go);
            f < |r.fibers| && (CarriesZero(r.fibers[f]) ==> CarriesZero(c.fibers[f]))
  {
  }

  lemma ZeroScansStay(s: State, f: nat, a: Action, prio: JobPriority, id: nat)
    requires SingleInv(s, prio, id)
    ensures ZeroScansAreLast(Step(s, f, a))
  {
    AtMostOneJob(s, prio, id);
    assert Shaped(s);
    if f < |s.procs| {
      assert ProcOk(s, f);
      var r := Step(s, f, a);
      StepShifts(s, f, a);
      FiberMoves(s, f, a);
      forall g: nat | g < |r.ctr.fibers| && CarriesZero(r.ctr.fibers[g])
        ensures |r.jobs| > 0 && r.jobs[0].state == Done
      {
        if g == f && !CarriesZero(s.ctr.fibers[f]) {
          FreshZero(s, f, a, prio, id);
        }
      }
      hide Step, Inv, Good;
    }
  }

  /** Only f moves on the counter. */
  lemma FiberMoves(s: State, f: nat, a: Action)
    requires Inv(s) && f < |s.procs|
    ensures var r := Step(s, f, a);
            |r.ctr.fibers| == |s.ctr.fibers|
            && forall g: nat | g < |s.ctr.fibers| && g != f :: r.ctr.fibers[g] == s.ctr.fibers[g]
  {
    var x := CounterAction(s, f);
    CounterMoves(s, f, a);
    SlotTheorems.ArmsOnlyGrow(s.ctr, f, x);
    forall g: nat | g < |s.ctr.fibers| && g != f ensures WaitSlots.Step(s.ctr, f, x).fibers[g] == s.ctr.fibers[g] {
      SlotTheorems.OthersUnmoved(s.ctr, f, x, g);
    }
    hide Inv, Step, WaitSlots.Step;
  }

  /** A step on the counter that is no addition begins no scan. */
  lemma NoScanBegins(c: WaitSlots.Counter, f: nat, a: WaitSlots.Action)
    requires WaitSlots.Shaped(c) && f < |c.fibers| && !a.Add? && !CarriesZero(c.fibers[f])
    ensures f < |WaitSlots.Step(c, f, a).fibers| && !CarriesZero(WaitSlots.Step(c, f, a).fibers[f])
  {
    if a == WaitSlots.Go { ScanKeepsValue(c, f); }
  }

  lemma CountingUpFrom0(c: WaitSlots.Counter, f: nat)
    requires WaitSlots.Shaped(c) && f < |c.fibers| && c.fibers[f] == WaitSlots.Away && c.value == 0
    ensures f < |WaitSlots.Step(c, f, WaitSlots.Add(1)).fibers|
            && !CarriesZero(WaitSlots.Step(c, f, WaitSlots.Add(1)).fibers[f])
  {
  }

  /** A scan with 0 begins with the Decrement of the only job. */
  lemma FreshZero(s: State, f: nat, a: Action, prio: JobPriority, id: nat)
    requires SingleInv(s, prio, id) && f < |s.procs| && !CarriesZero(s.ctr.fibers[f])
    requires var r := Step(s, f, a).ctr; f < |r.fibers| && CarriesZero(r.fibers[f])
    ensures var r := Step(s, f, a); |r.jobs| > 0 && r.jobs[0].state == Done
  {
    hide WaitSlots.Step, CarriesZero;
    assert ProcOk(s, f) && Conserved(s) && Shaped(s);
    forall x: WaitSlots.Action | !x.Add?
      ensures f < |WaitSlots.Step(s.ctr, f, x).fibers| && !CarriesZero(WaitSlots.Step(s.ctr, f, x).fibers[f])
    {
      NoScanBegins(s.ctr, f, x);
    }
    AtMostOneJob(s, prio, id);
    match s.procs[f] {
      case BodyDone(j) =>
      case Client(_, pc) =>
        FirstIsSched(s, f, prio, id);
        if s.jobs == [] { CountingUpFrom0(s.ctr, f); }
      case _ =>
    }
    hide Good, Inv, SingleInv;
  }

  /** The client counts only its first operation, when there is no job. */
  lemma FirstIsSched(s: State, f: nat, prio: JobPriority, id: nat)
    requires SingleInv(s, prio, id) && f < |s.procs| && s.procs[f].Client?
    ensures f == 0 && s.procs[f].script == [Sched(prio, id), Wait(0)]
    ensures s.procs[f].pc == 0 ==> s.jobs == [] && s.ctr.value == 0
  {
    AtMostOneJob(s, prio, id);
    InvConserved(s);
    NoneOutstanding(s.jobs);
    hide Inv, Good;
  }

  lemma AtMostOneMore(s: State, f: nat, a: Action)
    requires Inv(s) && |s.jobs| <= 1
    ensures Bounded(Step(s, f, a))
  {
    if f < |s.procs| { StepShifts(s, f, a); }
    hide Step, Inv;
  }

  lemma {:induction false} SingleRun(slots: nat, prio: JobPriority, id: nat, workers: nat, sched: Schedule)
    ensures var s0 := Init(slots, [SingleScript(prio, id)], workers);
            CleanRun(s0, sched) && SingleInv(Run(s0, sched), prio, id)
    decreases |sched|
  {
    var s0 := Init(slots, [SingleScript(prio, id)], workers);
    SoleClient(slots, [Sched(prio, id), Wait(0)], workers, sched);
    if sched == [] {
      InitGood(slots, [SingleScript(prio, id)], workers);
    } else {
      var front := sched[..|sched| - 1];
      var (f, a) := sched[|sched| - 1];
      SingleRun(slots, prio, id, workers, front);
      var s := Run(s0, front);
      assert Run(s0, sched) == Step(s, f, a) by { assert sched[|sched| - 1] == (f, a); }
      SingleIsClean(s, f, a, prio, id);
      AtMostOneJob(s, prio, id);
      AtMostOneMore(s, f, a);
      StepKeepsGood(s, f, a);
      ZeroScansStay(s, f, a, prio, id);
      hide Step, Good, Run, Clean, Init;
    }
  }

  /** In every run and by every route, WaitForSingle returns only after the job's body has run and the job
      has been counted down; there is one job, however often the counter is looked at. */
  lemma WaitForSingleIsABarrier(slots: nat, prio: JobPriority, id: nat, workers: nat, sched: Schedule)
    requires !prio.Unknown?
    requires var s := Run(Init(slots, [SingleScript(prio, id)], workers), sched);
             |s.procs| > 0 && s.procs[0] == Client(SingleScript(prio, id), 2)
    ensures var s := Run(Init(slots, [SingleScript(prio, id)], workers), sched);
            |s.jobs| == 1 && s.jobs[0].id == id && s.jobs[0].state == Done && s.ctr.value == 0
  {
    SingleRun(slots, prio, id, workers, sched);
    hide SingleInv, Run, Init, CleanRun;
    SingleDone(Run(Init(slots, [SingleScript(prio, id)], workers), sched), prio, id);
  }

  lemma SingleDone(s: State, prio: JobPriority, id: nat)
    requires !prio.Unknown?
    requires SingleInv(s, prio, id) && |s.procs| > 0 && s.procs[0] == Client(SingleScript(prio, id), 2)
    ensures |s.jobs| == 1 && s.jobs[0].id == id && s.jobs[0].state == Done && s.ctr.value == 0
  {
    AtMostOneJob(s, prio, id);
    assert AllMade(s, 0) && Inv(s) && Ordered(s) && Barriers(s);
    hide Inv, Good, AllMade;
    assert HasJob(s, 0, 0) by { OpMade(s, 0, 0); }
    var j: nat :| Made(s, j, 0, 0);
    assert MadeOk(s, 0) && BarrierOk(s, 0);
    hide Ordered, Barriers;
    assert SingleScript(prio, id)[1] == Wait(0);
    NoneOutstanding(s.jobs);
    assert Conserved(s) by { InvConserved(s); }
  }

  lemma OpMade(s: State, f: nat, o: nat)
    requires f < |s.procs| && AllMade(s, f) && IsClient(s.procs[f])
    requires o < s.procs[f].pc && o < |s.procs[f].script| && Schedules(s.procs[f].script[o])
    ensures HasJob(s, f, o)
  {
  }
}
