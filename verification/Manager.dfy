/** The scheduler as the object it is: the idle array, the thread records, the stored flags and the job
    queues changed in place.  A switch ends a method: what the switching fiber does next is a method of
    its own.  The queues are kept by their contents (MpmcObject proves the ring buffer to be one). */
module ManagerObject {
  import opened ThreadLocals
  import opened Jobs
  import opened CounterObject
  import WaitSlots
  import SlotSolo
  import FiberMachine

  datatype ReturnCode = Success | InvalidNumFibers

  datatype JobInfo = JobInfo(id: nat, counter: BaseCounter?)

  /** What GetNextJob comes to. */
  datatype Found =
    | Job(job: JobInfo)
    | NoJob
    | Resume(fiber: nat)            // switches to this fiber; ResumedGetNextJob follows when switched back

  /** How the search for an idle fiber stands. */
  datatype Search = Acquired(fiber: nat) | StillSearching

  /** What WaitForCounter comes to. */
  datatype Waited =
    | Returned
    | Threw
    | StillWaitingForFiber          // still in FindFreeFiber
    | SwitchedTo(fiber: nat)        // switches to this fiber; CleanupPreviousFiber follows when switched back

  /** The first ready entry from i on whose fiber is stored. */
  function FirstStored(ready: seq<(nat, nat)>, flags: seq<FiberMachine.FlagState>, i: nat): (k: nat)
    requires i <= |ready| && forall j: nat | j < |ready| :: ready[j].1 < |flags|
    ensures i <= k <= |ready| && (k < |ready| ==> flags[ready[k].1].value)
    ensures forall j: nat | i <= j < k :: !flags[ready[j].1].value
    decreases |ready| - i
  {
    if i == |ready| then i
    else if flags[ready[i].1].value then i
    else FirstStored(ready, flags, i + 1)
  }

  lemma FirstStoredStep(ready: seq<(nat, nat)>, flags: seq<FiberMachine.FlagState>, i: nat)
    requires i < |ready| && forall j: nat | j < |ready| :: ready[j].1 < |flags|
    ensures FirstStored(ready, flags, i) == if flags[ready[i].1].value then i else FirstStored(ready, flags, i + 1)
    ensures FirstStored(ready, flags, |ready|) == |ready|
  {
  }

  /** The record says what the machine's record says, history aside. */
  ghost predicate RecordShows(tls: TLS, t: FiberMachine.Tls)
    reads tls
  {
    && tls.isIO == t.isIO && tls.currentFiber == t.current && tls.previousFiber == t.previous
    && tls.previousStored == t.stored && tls.previousDestination == t.destination
    && tls.readyFibers == Pairs(t.ready)
  }

  function Pairs(ready: seq<FiberMachine.Entry>): (r: seq<(nat, nat)>)
    ensures |r| == |ready|
  {
    seq(|ready|, k requires 0 <= k < |ready| => (ready[k].fiber, ready[k].flag))
  }

  /** The flags of these entries have been allocated and not freed. */
  predicate FlagsLive(ready: seq<(nat, nat)>, flags: seq<FiberMachine.FlagState>) {
    forall k: nat | k < |ready| :: ready[k].1 < |flags| && flags[ready[k].1].live
  }

  /** Thread u goes on with fiber f for n steps, nobody else moving. */
  ghost function Nexts(s: FiberMachine.State, u: nat, f: nat, n: nat): (r: FiberMachine.State)
    requires FiberMachine.Shaped(s) && u < |s.exec| && f < |s.stage|
    ensures FiberMachine.SameCast(s, r)
  {
    if n == 0 then s else FiberMachine.NextOf(Nexts(s, u, f, n - 1), u, f)
  }

  /** From entry i, whose fiber is not stored, to the next. */
  lemma SkipsUnstored(s: FiberMachine.State, u: nat, f: nat, i: nat)
    requires FiberMachine.Shaped(s) && u < |s.exec| && f < |s.stage| && i < |s.tls[u].ready|
    requires var g := s.tls[u].ready[i].flag; g < |s.flags| && s.flags[g].live && !s.flags[g].value
    ensures FiberMachine.NextOf(At(s, f, i), u, f) == At(s, f, i + 1)
  {
    assert s.stage[f := FiberMachine.Scanning(i)][f := FiberMachine.Scanning(i + 1)]
           == s.stage[f := FiberMachine.Scanning(i + 1)];
  }

  function At(s: FiberMachine.State, f: nat, i: nat): (r: FiberMachine.State)
    requires FiberMachine.Shaped(s) && f < |s.stage|
    ensures FiberMachine.SameCast(s, r)
  {
    FiberMachine.SetStage(s, f, FiberMachine.Scanning(i))
  }

  lemma StartsScanning(s: FiberMachine.State, u: nat, f: nat)
    requires FiberMachine.Shaped(s) && u < |s.exec| && f < |s.stage|
    requires s.stage[f] == FiberMachine.Loop && !s.tls[u].isIO
    ensures FiberMachine.NextOf(s, u, f) == At(s, f, 0)
  {
  }

  /** In the machine too, GetNextJob comes to the first stored ready fiber, or to the end of the list. */
  lemma {:induction false} MachineScans(s: FiberMachine.State, u: nat, f: nat, i: nat) returns (n: nat)
    requires FiberMachine.Shaped(s) && u < |s.exec| && f < |s.stage|
    requires s.stage[f] == FiberMachine.Loop && !s.tls[u].isIO
    requires FlagsLive(Pairs(s.tls[u].ready), s.flags)
    requires i <= FirstStored(Pairs(s.tls[u].ready), s.flags, 0)
    ensures Nexts(s, u, f, n) == At(s, f, i)
  {
    hide FiberMachine.NextOf, FirstStored, At;
    if i == 0 {
      n := 1;
      StartsScanning(s, u, f);
      assert Nexts(s, u, f, 0) == s;
    } else {
      var j: nat := i - 1;
      n := MachineScans(s, u, f, j);
      assert (s.tls[u].ready[j].fiber, s.tls[u].ready[j].flag) == Pairs(s.tls[u].ready)[j];
      SkipsUnstored(s, u, f, j);
      n := n + 1;
    }
  }

  lemma TakesReady(m: FiberMachine.State, u: nat, f: nat, k: nat)
    requires FiberMachine.Shaped(m) && u < |m.exec| && f < |m.stage| && m.stage[f] == FiberMachine.Scanning(k)
    requires k < |m.tls[u].ready|
    requires var g := m.tls[u].ready[k].flag; g < |m.flags| && m.flags[g].live && m.flags[g].value
    ensures Took(m, FiberMachine.NextOf(m, u, f), u, f, k)
  {
  }

  /** What taking ready entry k does to pool, flags, record and stage in the machine. */
  ghost predicate Took(m: FiberMachine.State, r: FiberMachine.State, u: nat, f: nat, k: nat)
    requires FiberMachine.Shaped(m) && u < |m.exec| && k < |m.tls[u].ready| && m.tls[u].ready[k].flag < |m.flags|
    requires FiberMachine.SameCast(m, r) && f < |m.stage|
  {
    var t := m.tls[u];
    var g := t.ready[k].flag;
    && r.idle == m.idle && r.flags == m.flags[g := m.flags[g].(live := false)]
    && r.stage[f] == FiberMachine.PoolSwitch(t.ready[k].fiber) && r.fault == m.fault
    && r.tls[u] == FiberMachine.Tls(t.isIO, t.ready[k].fiber, t.current, t.stored, Pool,
                                    t.ready[..k] + t.ready[k + 1..])
  }

  lemma TakesFrom(s: FiberMachine.State, u: nat, f: nat, k: nat)
    requires FiberMachine.Shaped(s) && u < |s.exec| && f < |s.stage| && k < |s.tls[u].ready|
    requires var g := s.tls[u].ready[k].flag; g < |s.flags| && s.flags[g].live && s.flags[g].value
    ensures Took(s, FiberMachine.NextOf(At(s, f, k), u, f), u, f, k)
  {
    TakesReady(At(s, f, k), u, f, k);
    hide FiberMachine.NextOf;
  }

  lemma PairsWithout(ready: seq<FiberMachine.Entry>, k: nat)
    requires k < |ready|
    ensures Pairs(ready)[k] == (ready[k].fiber, ready[k].flag)
    ensures Pairs(ready[..k] + ready[k + 1..]) == Pairs(ready)[..k] + Pairs(ready)[k + 1..]
  {
  }

  /** The machine gets to take the first stored ready fiber. */
  lemma MachineTakes(s: FiberMachine.State, u: nat, f: nat, k: nat) returns (n: nat)
    requires FiberMachine.Shaped(s) && u < |s.exec| && f < |s.stage|
    requires s.stage[f] == FiberMachine.Loop && !s.tls[u].isIO
    requires FlagsLive(Pairs(s.tls[u].ready), s.flags)
    requires k < |s.tls[u].ready| && k == FirstStored(Pairs(s.tls[u].ready), s.flags, 0)
    ensures Pairs(s.tls[u].ready)[k] == (s.tls[u].ready[k].fiber, s.tls[u].ready[k].flag)
    ensures s.tls[u].ready[k].flag < |s.flags| && Took(s, Nexts(s, u, f, n), u, f, k)
    ensures Pairs(s.tls[u].ready[..k] + s.tls[u].ready[k + 1..])
         == Pairs(s.tls[u].ready)[..k] + Pairs(s.tls[u].ready)[k + 1..]
  {
    PairsWithout(s.tls[u].ready, k);
    hide Pairs;
    n := MachineScans(s, u, f, k);
    assert FirstStored(Pairs(s.tls[u].ready), s.flags, 0) == k;
    hide FiberMachine.NextOf, FirstStored, Took;
    TakesFrom(s, u, f, k);
    n := n + 1;
  }

  /** If no ready fiber is stored, the machine gets to the normal and low queues with nothing else changed. */
  lemma MachineFindsNone(s: FiberMachine.State, u: nat, f: nat) returns (n: nat)
    requires FiberMachine.Shaped(s) && u < |s.exec| && f < |s.stage|
    requires s.stage[f] == FiberMachine.Loop && !s.tls[u].isIO
    requires FlagsLive(Pairs(s.tls[u].ready), s.flags)
    requires FirstStored(Pairs(s.tls[u].ready), s.flags, 0) == |s.tls[u].ready|
    ensures Nexts(s, u, f, n) == FiberMachine.SetStage(s, f, FiberMachine.Tail)
  {
    n := MachineScans(s, u, f, |s.tls[u].ready|);
    EndsScanning(s, u, f);
    hide FiberMachine.NextOf, FirstStored, At, Pairs;
    n := n + 1;
  }

  lemma EndsScanning(s: FiberMachine.State, u: nat, f: nat)
    requires FiberMachine.Shaped(s) && u < |s.exec| && f < |s.stage|
    ensures FiberMachine.NextOf(At(s, f, |s.tls[u].ready|), u, f) == FiberMachine.SetStage(s, f, FiberMachine.Tail)
  {
    var k := |s.tls[u].ready|;
    assert s.stage[f := FiberMachine.Scanning(k)][f := FiberMachine.Tail] == s.stage[f := FiberMachine.Tail];
  }

  /** The record that the clean-up after a switch is about, and what follows it. */
  function CleanupOf(l: FiberMachine.Stage, u: nat): (nat, FiberMachine.Point)
    requires l.Fresh? || l.PoolResume? || l.WaitResume?
  {
    match l
    case Fresh => (u, FiberMachine.ToLoop)
    case PoolResume(c) => (c, FiberMachine.ToTail)
    case WaitResume(_, _) => (u, FiberMachine.ToJob)
  }

  lemma StoresAndResets(s: FiberMachine.State, u: nat, f: nat, c: nat, p: FiberMachine.Point)
    requires FiberMachine.Shaped(s) && u < |s.exec| && f < |s.stage| && c < |s.tls|
    requires var t := s.tls[c];
             t.destination != Nowhere
             && s.stage[f] == FiberMachine.CleanStore(c, t.destination, t.previous, t.stored, p)
    ensures FiberMachine.NextOf(FiberMachine.NextOf(s, u, f), u, f)
         == FiberMachine.SetStage(FiberMachine.Cleanup(s, c), f, FiberMachine.After(p))
  {
    var i := FiberMachine.CleanReset(c, p);
    assert s.stage[f := i][f := FiberMachine.After(p)] == s.stage[f := FiberMachine.After(p)];
  }

  lemma LoadsRecord(s: FiberMachine.State, u: nat, f: nat, c: nat, p: FiberMachine.Point)
    requires FiberMachine.Shaped(s) && u < |s.exec| && f < |s.stage| && c < |s.tls|
    requires s.stage[f].Fresh? ==> !s.isMain[f]
    requires s.stage[f].Fresh? || s.stage[f].PoolResume? || s.stage[f].WaitResume?
    requires (c, p) == CleanupOf(s.stage[f], u) && s.tls[c].destination != Nowhere
    ensures var t := s.tls[c];
            FiberMachine.NextOf(FiberMachine.NextOf(s, u, f), u, f)
            == FiberMachine.SetStage(s, f, FiberMachine.CleanStore(c, t.destination, t.previous, t.stored, p))
  {
    var t := s.tls[c];
    var l := FiberMachine.CleanStore(c, t.destination, t.previous, t.stored, p);
    assert s.stage[f := FiberMachine.CleanRead(c, t.destination, p)][f := l] == s.stage[f := l];
  }

  /** In the machine, a clean-up that nothing interrupts is Cleanup. */
  lemma MachineCleansUp(s: FiberMachine.State, u: nat, f: nat, c: nat, p: FiberMachine.Point) returns (n: nat)
    requires FiberMachine.Shaped(s) && u < |s.exec| && f < |s.stage| && c < |s.tls|
    requires s.stage[f].Fresh? ==> !s.isMain[f]
    requires s.stage[f].Fresh? || s.stage[f].PoolResume? || s.stage[f].WaitResume?
    requires (c, p) == CleanupOf(s.stage[f], u)
    ensures Nexts(s, u, f, n) == FiberMachine.SetStage(FiberMachine.Cleanup(s, c), f, FiberMachine.After(p))
  {
    assert Nexts(s, u, f, 0) == s;
    assert Nexts(s, u, f, 1) == FiberMachine.NextOf(s, u, f);
    if s.tls[c].destination == Nowhere {
      n := 1;
    } else {
      n := 4;
      LoadsRecord(s, u, f, c, p);
      var t := s.tls[c];
      var l := FiberMachine.CleanStore(c, t.destination, t.previous, t.stored, p);
      StoresAndResets(FiberMachine.SetStage(s, f, l), u, f, c, p);
      CleanupAnyStage(s, c, f, l, FiberMachine.After(p));
      hide FiberMachine.NextOf, FiberMachine.Cleanup;
      assert Nexts(s, u, f, 2) == FiberMachine.SetStage(s, f, l);
      assert Nexts(s, u, f, 3) == FiberMachine.NextOf(Nexts(s, u, f, 2), u, f);
    }
  }

  lemma CleanupAnyStage(s: FiberMachine.State, c: nat, f: nat, l: FiberMachine.Stage, m: FiberMachine.Stage)
    requires FiberMachine.Shaped(s) && c < |s.tls| && f < |s.stage|
    ensures FiberMachine.SetStage(FiberMachine.Cleanup(FiberMachine.SetStage(s, f, l), c), f, m)
         == FiberMachine.SetStage(FiberMachine.Cleanup(s, c), f, m)
  {
    assert s.stage[f := l][f := m] == s.stage[f := m];
  }

  /** The machine's thread u, in a job, has called WaitForCounter and armed a slot. */
  function MachineRegistered(s: FiberMachine.State, u: nat): (r: FiberMachine.State)
    requires FiberMachine.Shaped(s)
    ensures FiberMachine.SameCast(s, r)
  {
    FiberMachine.Step(FiberMachine.Step(s, u, FiberMachine.Wait), u, FiberMachine.Register)
  }

  /** It has got as far as looking for a fiber. */
  function MachineLeft(s: FiberMachine.State, u: nat): (r: FiberMachine.State)
    requires FiberMachine.Shaped(s)
    ensures FiberMachine.SameCast(s, r)
  {
    FiberMachine.Step(FiberMachine.Step(MachineRegistered(s, u), u, FiberMachine.Decline), u, FiberMachine.Next)
  }

  /** What the machine makes of a call of WaitForCounter that got past its first look at the counter. */
  function MachineWaited(s: FiberMachine.State, u: nat, r: Waited): (m: FiberMachine.State)
    requires FiberMachine.Shaped(s)
    ensures FiberMachine.SameCast(s, m)
  {
    match r
    case Threw => FiberMachine.Step(FiberMachine.Step(s, u, FiberMachine.Wait), u, FiberMachine.Full)
    case Returned => FiberMachine.Step(MachineRegistered(s, u), u, FiberMachine.Cancel)
    case StillWaitingForFiber => MachineLeft(s, u)
    case SwitchedTo(i) => FiberMachine.Step(MachineLeft(s, u), u, FiberMachine.Claim(i))
  }

  /** Thread u executes fiber f, which is its current one and in a job. */
  predicate InJob(s: FiberMachine.State, u: nat, f: nat)
    requires FiberMachine.Shaped(s)
  {
    u < |s.exec| && s.exec[u] == FiberMachine.Running(f) && f < |s.stage| && s.stage[f] == FiberMachine.Job
    && s.tls[u].current == f
  }

  lemma RegisterShows(s: FiberMachine.State, u: nat, f: nat)
    requires FiberMachine.Shaped(s) && InJob(s, u, f)
    ensures var m := MachineRegistered(s, u);
            && m.idle == s.idle && m.flags == s.flags + [FiberMachine.FlagState(f, true, false)]
            && m.exec == s.exec && m.stage[f] == FiberMachine.Registered(|s.flags|, |s.regs|)
            && m.tls == s.tls && m.fault == s.fault
            && |m.regs| == |s.regs| + 1 && m.regs[|s.regs|].status.Open?
  {
    var a := FiberMachine.Step(s, u, FiberMachine.Wait);
    assert a.stage[f] == FiberMachine.HaveFlag(|s.flags|) && a.tls == s.tls && a.exec == s.exec && a.regs == s.regs;
    assert a.flags == s.flags + [FiberMachine.FlagState(f, true, false)] && a.idle == s.idle;
  }

  lemma LeftShows(s: FiberMachine.State, u: nat, f: nat)
    requires FiberMachine.Shaped(s) && InJob(s, u, f)
    ensures var m, g := MachineLeft(s, u), |s.flags|;
            && m.idle == s.idle && m.flags == s.flags + [FiberMachine.FlagState(f, true, false)]
            && m.exec == s.exec && m.stage[f] == FiberMachine.Leaving(g, |s.regs|)
            && m.tls == s.tls[u := s.tls[u].(previous := f, destination := Waiting, stored := Flag(g))]
  {
    RegisterShows(s, u, f);
    hide MachineRegistered;
    var b := MachineRegistered(s, u);
    var c := FiberMachine.Step(b, u, FiberMachine.Decline);
    assert c.stage[f] == FiberMachine.Declined(|s.flags|, |s.regs|) && c.tls == s.tls && c.exec == s.exec;
    assert c.flags == b.flags && c.idle == s.idle;
  }

  lemma CancelShows(s: FiberMachine.State, u: nat, f: nat)
    requires FiberMachine.Shaped(s) && InJob(s, u, f)
    ensures var m := MachineWaited(s, u, Returned);
            && m.idle == s.idle && m.tls == s.tls && m.fault == s.fault && m.stage[f] == FiberMachine.Job
            && m.flags == s.flags + [FiberMachine.FlagState(f, false, false)]
  {
    RegisterShows(s, u, f);
    hide MachineRegistered, MachineLeft;
  }

  lemma StillShows(s: FiberMachine.State, u: nat)
    requires FiberMachine.Shaped(s)
    ensures MachineWaited(s, u, StillWaitingForFiber) == MachineLeft(s, u)
  {
  }

  lemma FullShows(s: FiberMachine.State, u: nat, f: nat)
    requires FiberMachine.Shaped(s) && InJob(s, u, f)
    ensures var m := MachineWaited(s, u, Threw);
            && m.idle == s.idle && m.tls == s.tls && m.fault == s.fault && m.stage[f] == FiberMachine.Job
            && m.flags == s.flags + [FiberMachine.FlagState(f, true, false)]
  {
    var a := FiberMachine.Step(s, u, FiberMachine.Wait);
    assert a.stage[f] == FiberMachine.HaveFlag(|s.flags|) && a.tls == s.tls && a.exec == s.exec;
  }

  lemma SwitchShows(s: FiberMachine.State, u: nat, f: nat, i: nat)
    requires FiberMachine.Shaped(s) && InJob(s, u, f) && i < |s.idle| && s.idle[i]
    ensures var l, m := MachineLeft(s, u), MachineWaited(s, u, SwitchedTo(i));
            && m.idle == s.idle[i := false] && m.flags == l.flags && m.tls == l.tls[u := l.tls[u].(current := i)]
            && m.stage[f] == FiberMachine.WaitSwitch(|s.flags|, |s.regs|, i)
  {
    LeftShows(s, u, f);
    hide MachineLeft;
  }

  class Manager {
    const idleFibers: array<bool>
    const highCapacity: nat
    const normalCapacity: nat
    const lowCapacity: nat
    const ioCapacity: nat
    var flags: seq<FiberMachine.FlagState>      // every stored flag ever allocated
    var highPriority: seq<JobInfo>
    var normalPriority: seq<JobInfo>
    var lowPriority: seq<JobInfo>
    var io: seq<JobInfo>

    constructor (numFibers: nat, high: nat, normal: nat, low: nat, io: nat)
      ensures fresh(idleFibers) && idleFibers.Length == numFibers
      ensures highCapacity == high && normalCapacity == normal && lowCapacity == low && ioCapacity == io
      ensures flags == [] && Queues() == JobQueues([], [], [], [])
    {
      idleFibers := new bool[numFibers];
      highCapacity, normalCapacity, lowCapacity, ioCapacity := high, normal, low, io;
      flags := [];
      highPriority, normalPriority, lowPriority, this.io := [], [], [], [];
    }

    /** What the job queues hold. */
    function Queues(): JobQueues<JobInfo>
      reads this
    {
      JobQueues(highPriority, normalPriority, lowPriority, io)
    }

    /** The idle pool and the flags are those of s, and tls is thread u's record in it. */
    ghost predicate Shows(s: FiberMachine.State, u: nat, tls: TLS)
      reads this, idleFibers, tls
    {
      FiberMachine.Shaped(s) && u < |s.tls|
      && idleFibers[..] == s.idle && flags == s.flags && RecordShows(tls, s.tls[u])
    }

    /** Run, as far as it sets up fibers and thread records. */
    method SetUp(threads: seq<TLS>) returns (code: ReturnCode)
      requires forall u: nat, v: nat | u < v < |threads| :: threads[u] != threads[v]
      modifies idleFibers, set u: nat | u < |threads| :: threads[u]`isIO
      ensures code == InvalidNumFibers <==> idleFibers.Length == 0
      ensures code == Success ==>
                (forall f: nat | f < idleFibers.Length :: idleFibers[f])
                && forall u: nat | u < |threads| ::
                     threads[u].isIO == (old(threads[u].isIO) || (u > 0 && u == |threads| - 1))
      ensures code == InvalidNumFibers ==> forall u: nat | u < |threads| :: threads[u].isIO == old(threads[u].isIO)
    {
      if idleFibers.Length == 0 {
        return InvalidNumFibers;
      }
      var i := 0;
      while i < idleFibers.Length
        invariant 0 <= i <= idleFibers.Length
        invariant forall f: nat | f < i :: idleFibers[f]
        invariant forall u: nat | u < |threads| :: threads[u].isIO == old(threads[u].isIO)
      {
        idleFibers[i] := true;
        i := i + 1;
      }
      var u := 0;
      while u < |threads|
        invariant 0 <= u <= |threads|
        invariant forall f: nat | f < idleFibers.Length :: idleFibers[f]
        invariant forall v: nat | v < |threads| ::
                    threads[v].isIO == (old(threads[v].isIO) || (v < u && v > 0 && v == |threads| - 1))
      {
        if u > 0 && u == |threads| - 1 {
          threads[u].isIO := true;
        }
        u := u + 1;
      }
      return Success;
    }

    /** The search as far as `rounds` passes over the pool; `failures` tells how often the weak
        compare-exchange fails although it could succeed.  Without an idle fiber it goes on for ever. */
    method FindFreeFiber(failures: nat, rounds: nat) returns (r: Search)
      modifies idleFibers
      ensures r.Acquired? ==>
                r.fiber < idleFibers.Length && old(idleFibers[..])[r.fiber]
                && idleFibers[..] == old(idleFibers[..])[r.fiber := false]
      ensures r.StillSearching? ==> idleFibers[..] == old(idleFibers[..])
      ensures failures < rounds ==> (r.Acquired? <==> exists i: nat :: i < idleFibers.Length && old(idleFibers[..])[i])
      ensures failures == 0 && r.Acquired? ==> forall j: nat | j < r.fiber :: !old(idleFibers[..])[j]
    {
      ghost var pool := idleFibers[..];
      var left: nat := failures;
      var pass := 0;
      while pass < rounds
        invariant 0 <= pass <= rounds && idleFibers[..] == pool && left <= failures
        invariant (exists i: nat :: i < |pool| && pool[i]) ==> left + pass <= failures
      {
        ghost var was: nat := left;
        var i := 0;
        while i < idleFibers.Length
          invariant 0 <= i <= idleFibers.Length && 0 <= left <= was
          invariant idleFibers[..] == pool
          invariant left == was ==> forall j: nat | j < i :: !pool[j]
        {
          if !idleFibers[i] {
            i := i + 1;
            continue;
          }
          assert pool[i];
          if left == 0 {
            idleFibers[i] := false;
            return Acquired(i);
          }
          left := left - 1;
          i := i + 1;
        }
        pass := pass + 1;
      }
      return StillSearching;
    }

    /** Does to the pool, the flags and the record what FiberMachine.Cleanup does. */
    method CleanupPreviousFiber(tls: TLS, ghost s: FiberMachine.State, ghost u: nat)
      requires Shows(s, u, tls)
      requires tls.previousDestination == Pool ==> tls.previousFiber < idleFibers.Length
      requires tls.previousDestination == Waiting ==>
                 tls.previousStored.Flag? && tls.previousStored.id < |flags| && flags[tls.previousStored.id].live
      modifies this`flags, idleFibers, tls`previousFiber, tls`previousStored, tls`previousDestination
      ensures Shows(FiberMachine.Cleanup(s, u), u, tls) && FiberMachine.Cleanup(s, u).fault == s.fault
      ensures idleFibers[..] == if old(tls.previousDestination) == Pool
                                then old(idleFibers[..])[old(tls.previousFiber) := true] else old(idleFibers[..])
      ensures flags == if old(tls.previousDestination) == Waiting
                       then var g := old(tls.previousStored.id); old(flags)[g := old(flags)[g].(value := true)]
                       else old(flags)
      ensures tls.previousDestination == Nowhere
      ensures old(tls.previousDestination) != Nowhere ==> tls.previousFiber == 0xFFFF && tls.previousStored == Null
    {
      match tls.previousDestination {
        case Nowhere => return;
        case Pool => idleFibers[tls.previousFiber] := true;
        case Waiting =>
          flags := flags[tls.previousStored.id := flags[tls.previousStored.id].(value := true)];
      }
      tls.Cleanup();
    }

    /** GetNextJob up to its switch, if it comes to one.  An IO thread looks at the IO queue only; for others
        the high queue comes first, then the oldest stored ready fiber, then the normal and low queues. */
    method GetNextJob(tls: TLS, ghost s: FiberMachine.State, ghost u: nat, ghost f: nat) returns (r: Found)
      requires Shows(s, u, tls) && f < |s.stage| && s.stage[f] == FiberMachine.Loop
      requires FlagsLive(tls.readyFibers, flags)
      modifies this, tls
      ensures r.Resume? <==>
                !tls.isIO && old(highPriority) == []
                && exists j: nat :: j < |old(tls.readyFibers)| && old(flags)[old(tls.readyFibers)[j].1].value
      ensures r.Job? && tls.isIO ==>
                old(io) == [r.job] + io
                && Queues() == old(Queues()).(io := io)
      ensures r.Job? && !tls.isIO && old(highPriority) != [] ==>
                old(highPriority) == [r.job] + highPriority
                && Queues() == old(Queues()).(high := highPriority)
      ensures r.Job? && !tls.isIO && old(highPriority) == [] && old(normalPriority) != [] ==>
                old(normalPriority) == [r.job] + normalPriority
                && Queues() == old(Queues()).(normal := normalPriority)
      ensures r.Job? && !tls.isIO && old(highPriority) == [] && old(normalPriority) == [] ==>
                old(lowPriority) == [r.job] + lowPriority
                && Queues() == old(Queues()).(low := lowPriority)
      ensures r == NoJob ==>
                (if tls.isIO then io == [] else highPriority == normalPriority == lowPriority == [])
      ensures !r.Job? ==> Queues() == old(Queues())
      ensures !r.Resume? ==>
                Shows(s, u, tls)
                && match Take(old(Queues()), tls.isIO)
                   case NothingToDo => r == NoJob
                   case Took(job, rest) => r == Job(job) && Queues() == rest
      ensures !tls.isIO && old(highPriority) == [] && !r.Resume? ==>
                exists n: nat :: Nexts(s, u, f, n) == FiberMachine.SetStage(s, f, FiberMachine.Tail)
      ensures r.Resume? ==>
                var k := FirstStored(old(tls.readyFibers), old(flags), 0);
                && k < |old(tls.readyFibers)| && r.fiber == old(tls.readyFibers)[k].0
                && tls.readyFibers == old(tls.readyFibers)[..k] + old(tls.readyFibers)[k + 1..]
                && tls.previousFiber == old(tls.currentFiber) && tls.previousDestination == Pool
                && tls.currentFiber == r.fiber && tls.previousStored == old(tls.previousStored)
                && var g := old(tls.readyFibers)[k].1; flags == old(flags)[g := old(flags)[g].(live := false)]
      ensures tls.isIO == old(tls.isIO)
      ensures r.Resume? ==> exists n: nat :: PreparedSwitch(Nexts(s, u, f, n), u, f, tls, r.fiber)
    {
      hide Nexts, Pairs;
      if tls.isIO {
        r, io := Dequeue(io);
        return;
      }
      r, highPriority := Dequeue(highPriority);
      if r.Job? {
        return;
      }
      hide FirstStored;
      r := NextReady(tls, s, u, f);
      if r == NoJob {
        r := NormalOrLow();
      }
    }

    /** The loop of GetNextJob over the ready fibers, up to its switch. */
    method NextReady(tls: TLS, ghost s: FiberMachine.State, ghost u: nat, ghost f: nat) returns (r: Found)
      requires Shows(s, u, tls) && f < |s.stage| && s.stage[f] == FiberMachine.Loop
      requires FlagsLive(tls.readyFibers, flags) && !tls.isIO
      modifies this`flags, tls`readyFibers, tls`previousFiber, tls`previousDestination, tls`currentFiber
      ensures r == NoJob || r.Resume?
      ensures r.Resume? <==>
                exists j: nat :: j < |old(tls.readyFibers)| && old(flags)[old(tls.readyFibers)[j].1].value
      ensures r == NoJob ==>
                Shows(s, u, tls) && exists n: nat :: Nexts(s, u, f, n) == FiberMachine.SetStage(s, f, FiberMachine.Tail)
      ensures r.Resume? ==>
                var k := FirstStored(old(tls.readyFibers), old(flags), 0);
                && k < |old(tls.readyFibers)| && r.fiber == old(tls.readyFibers)[k].0
                && tls.readyFibers == old(tls.readyFibers)[..k] + old(tls.readyFibers)[k + 1..]
                && tls.previousFiber == old(tls.currentFiber) && tls.previousDestination == Pool
                && tls.currentFiber == r.fiber
                && (var g := old(tls.readyFibers)[k].1; flags == old(flags)[g := old(flags)[g].(live := false)])
      ensures r.Resume? ==> exists n: nat :: PreparedSwitch(Nexts(s, u, f, n), u, f, tls, r.fiber)
    {
      hide Nexts, Pairs;
      var k := 0;
      while k < |tls.readyFibers|
        invariant 0 <= k <= |tls.readyFibers|
        invariant Shows(s, u, tls) && tls.readyFibers == old(tls.readyFibers) && flags == old(flags)
        invariant FirstStored(tls.readyFibers, flags, k) == FirstStored(old(tls.readyFibers), old(flags), 0)
      {
        var fiber, flag := tls.readyFibers[k].0, tls.readyFibers[k].1;
        FirstStoredStep(tls.readyFibers, flags, k);
        if !flags[flag].value {
          k := k + 1;
          continue;
        }
        ghost var n := MachineTakes(s, u, f, k);
        flags := flags[flag := flags[flag].(live := false)];
        tls.readyFibers := tls.readyFibers[..k] + tls.readyFibers[k + 1..];
        tls.previousFiber := tls.currentFiber;
        tls.previousDestination := Pool;
        tls.currentFiber := fiber;
        assert PreparedSwitch(Nexts(s, u, f, n), u, f, tls, fiber);
        return Resume(fiber);
      }
      ghost var n := MachineFindsNone(s, u, f);
      return NoJob;
    }

    /** mpmc_queue::dequeue, on the contents (MpmcObject). */
    static method Dequeue(q: seq<JobInfo>) returns (r: Found, rest: seq<JobInfo>)
      ensures r == NoJob ==> q == [] && rest == []
      ensures r != NoJob ==> r.Job? && q == [r.job] + rest
    {
      if q == [] {
        return NoJob, [];
      }
      return Job(q[0]), q[1..];
    }

    /** The end of GetNextJob. */
    method NormalOrLow() returns (r: Found)
      modifies this`normalPriority, this`lowPriority
      ensures old(normalPriority) != [] ==>
                r.Job? && old(normalPriority) == [r.job] + normalPriority && lowPriority == old(lowPriority)
      ensures old(normalPriority) == [] && old(lowPriority) != [] ==>
                r.Job? && old(lowPriority) == [r.job] + lowPriority && normalPriority == []
      ensures old(normalPriority) == [] && old(lowPriority) == [] ==>
                r == NoJob && normalPriority == [] && lowPriority == []
    {
      r, normalPriority := Dequeue(normalPriority);
      if r == NoJob {
        r, lowPriority := Dequeue(lowPriority);
      }
    }

    /** GetNextJob after it has been switched back to: it cleans up the record it had captured, whichever
        thread it is on by now. */
    method ResumedGetNextJob(cached: TLS, ghost s: FiberMachine.State, ghost c: nat) returns (r: Found)
      requires Shows(s, c, cached)
      requires cached.previousDestination == Pool ==> cached.previousFiber < idleFibers.Length
      requires cached.previousDestination == Waiting ==>
                 cached.previousStored.Flag?
                 && cached.previousStored.id < |flags| && flags[cached.previousStored.id].live
      modifies this, idleFibers, cached
      ensures Shows(FiberMachine.Cleanup(s, c), c, cached)
      ensures old(normalPriority) != [] ==>
                r.Job? && old(normalPriority) == [r.job] + normalPriority && lowPriority == old(lowPriority)
      ensures old(normalPriority) == [] && old(lowPriority) != [] ==>
                r.Job? && old(lowPriority) == [r.job] + lowPriority && normalPriority == []
      ensures old(normalPriority) == [] && old(lowPriority) == [] ==>
                r == NoJob && normalPriority == [] && lowPriority == []
      ensures io == old(io) && highPriority == old(highPriority)
    {
      CleanupPreviousFiber(cached, s, c);
      r := NormalOrLow();
    }

    /** WaitForCounter, `loaded` being what its first look at the counter saw, up to its switch. */
    method WaitForCounter(counter: BaseCounter?, loaded: nat, target: nat, tls: TLS, failures: nat, rounds: nat,
                          ghost s: FiberMachine.State, ghost u: nat, ghost f: nat)
      returns (r: Waited)
      requires Shows(s, u, tls) && InJob(s, u, f)
      requires counter != null ==> counter.Valid()
      requires counter != null ==> counter.freeWaitingSlots != idleFibers
      modifies this`flags, idleFibers, tls
      modifies if counter == null then {} else {counter.waitingFibers}
      modifies if counter == null then {} else {counter.freeWaitingSlots}
      ensures counter == null || loaded == target ==> r == Returned && flags == old(flags)
      ensures counter != null && loaded == target ==>
                counter.waitingFibers[..] == old(counter.waitingFibers[..])
                && counter.freeWaitingSlots[..] == old(counter.freeWaitingSlots[..])
      ensures r == Returned || r.Threw? ==>
                idleFibers[..] == old(idleFibers[..])
                && tls.currentFiber == old(tls.currentFiber) && tls.previousFiber == old(tls.previousFiber)
                && tls.previousStored == old(tls.previousStored)
                && tls.previousDestination == old(tls.previousDestination)
      ensures counter != null ==> counter.Valid()
      ensures counter != null && loaded != target ==>
                var g := |old(flags)|;
                var full := forall i: nat | i < counter.freeWaitingSlots.Length ::
                     !old(counter.freeWaitingSlots[..])[i];
                var req := WaitSlots.Request(old(tls.currentFiber), g, target);
                && r.Threw? == full && (r == Returned <==> !full && target == counter.counter)
                && counter.waitingFibers[..] == SlotSolo.RegisteredSlots(
                     old(counter.waitingFibers[..]), old(counter.freeWaitingSlots[..]), counter.counter, req)
                && counter.freeWaitingSlots[..] == SlotSolo.RegisteredFree(
                     old(counter.freeWaitingSlots[..]), counter.counter, req)
                && flags == old(flags) + [FiberMachine.FlagState(req.fiber, r != Returned, false)]
                && (r.SwitchedTo? ==>
                      r.fiber < idleFibers.Length && old(idleFibers[..])[r.fiber]
                      && idleFibers[..] == old(idleFibers[..])[r.fiber := false]
                      && tls.currentFiber == r.fiber && tls.previousFiber == old(tls.currentFiber)
                      && tls.previousDestination == Waiting && tls.previousStored == Flag(g))
                && (failures < rounds && (r.SwitchedTo? || r.StillWaitingForFiber?) ==>
                      (r.SwitchedTo? <==> exists i: nat :: i < idleFibers.Length && old(idleFibers[..])[i]))
                && (r.StillWaitingForFiber? ==>
                      idleFibers[..] == old(idleFibers[..]) && tls.currentFiber == old(tls.currentFiber)
                      && tls.previousFiber == old(tls.currentFiber)
                      && tls.previousDestination == Waiting && tls.previousStored == Flag(g))
      ensures tls.readyFibers == old(tls.readyFibers) && tls.isIO == old(tls.isIO)
      ensures Shows(if counter == null || loaded == target then s else MachineWaited(s, u, r), u, tls)
    {
      hide MachineLeft, MachineRegistered, MachineWaited, Pairs, SlotSolo.RegisteredSlots, SlotSolo.RegisteredFree;
      hide FiberMachine.Step;
      if counter == null || loaded == target {
        return Returned;
      }
      var fiberStored := |flags|;
      flags := flags + [FiberMachine.FlagState(tls.currentFiber, true, false)];
      var verdict := counter.AddWaitingFiber(WaitSlots.Request(tls.currentFiber, fiberStored, target));
      match verdict {
        case AlreadyDone =>
          flags := flags[fiberStored := flags[fiberStored].(live := false)];
          CancelShows(s, u, f);
          return Returned;
        case SlotsFullException =>
          FullShows(s, u, f);
          return Threw;
        case MustWait =>
      }
      LeftShows(s, u, f);
      r := LookForFiber(tls, fiberStored, failures, rounds);
      if r.SwitchedTo? { SwitchShows(s, u, f, r.fiber); } else { StillShows(s, u); }
    }

    /** The end of WaitForCounter, up to its switch. */
    method LookForFiber(tls: TLS, stored: nat, failures: nat, rounds: nat) returns (r: Waited)
      modifies idleFibers, tls`currentFiber, tls`previousFiber, tls`previousDestination, tls`previousStored
      ensures tls.previousFiber == old(tls.currentFiber) && tls.previousDestination == Waiting
      ensures tls.previousStored == Flag(stored)
      ensures r.SwitchedTo? || r.StillWaitingForFiber?
      ensures r.SwitchedTo? ==>
                r.fiber < idleFibers.Length && old(idleFibers[..])[r.fiber]
                && idleFibers[..] == old(idleFibers[..])[r.fiber := false] && tls.currentFiber == r.fiber
      ensures r.StillWaitingForFiber? ==>
                idleFibers[..] == old(idleFibers[..]) && tls.currentFiber == old(tls.currentFiber)
      ensures failures < rounds ==>
                (r.SwitchedTo? <==> exists i: nat :: i < idleFibers.Length && old(idleFibers[..])[i])
    {
      tls.previousFiber := tls.currentFiber;
      tls.previousDestination := Waiting;
      tls.previousStored := Flag(stored);
      var search := FindFreeFiber(failures, rounds);
      match search {
        case StillSearching => return StillWaitingForFiber;
        case Acquired(fiber) =>
          tls.currentFiber := fiber;
          return SwitchedTo(fiber);
      }
    }

    /** False when it throws.  The counter is incremented first, and stays so if the queue is full. */
    method ScheduleJob(prio: JobPriority, job: JobInfo, tls: TLS) returns (ok: bool)
      requires job.counter != null ==> job.counter.Valid()
      modifies this`highPriority, this`normalPriority, this`lowPriority, this`io, tls`readyFibers
      modifies if job.counter == null then {} else {job.counter}
      modifies if job.counter == null then {} else {job.counter.waitingFibers}
      modifies if job.counter == null then {} else {job.counter.freeWaitingSlots}
      ensures prio == High ==>
                ok == (|old(highPriority)| < highCapacity)
                && (ok ==> Queues() == old(Queues()).(high := old(highPriority) + [job]))
      ensures prio == Normal ==>
                ok == (|old(normalPriority)| < normalCapacity)
                && (ok ==> Queues() == old(Queues()).(normal := old(normalPriority) + [job]))
      ensures prio == Low ==>
                ok == (|old(lowPriority)| < lowCapacity)
                && (ok ==> Queues() == old(Queues()).(low := old(lowPriority) + [job]))
      ensures prio == IO ==>
                ok == (|old(io)| < ioCapacity) && (ok ==> Queues() == old(Queues()).(io := old(io) + [job]))
      ensures prio.Unknown? ==> ok && Queues() == old(Queues())
      ensures Queues() == if ok then Scheduled(old(Queues()), prio, job) else old(Queues())
      ensures job.counter != null ==>
                var c := job.counter;
                var v := (old(c.counter) + 1) % 0x1_0000_0000;
                && c.Valid()
                && if prio.Unknown? then
                     c.counter == old(c.counter) && c.waitingFibers[..] == old(c.waitingFibers[..])
                     && c.freeWaitingSlots[..] == old(c.freeWaitingSlots[..])
                   else
                     c.counter == v
                     && c.waitingFibers[..] == SlotSolo.ScannedSlots(
                          old(c.waitingFibers[..]), old(c.freeWaitingSlots[..]), v, 0)
                     && c.freeWaitingSlots[..] == SlotSolo.ScannedFree(
                          old(c.waitingFibers[..]), old(c.freeWaitingSlots[..]), v, 0)
      ensures tls.readyFibers == old(tls.readyFibers)
                + if job.counter == null || prio.Unknown? then []
                  else SlotSolo.ScanWakes(old(job.counter.waitingFibers[..]), old(job.counter.freeWaitingSlots[..]),
                                          (old(job.counter.counter) + 1) % 0x1_0000_0000, 0)
    {
      var queue := GetQueueByPriority(prio);
      if queue == NoQueue {
        return true;
      }
      if job.counter != null {
        var prev := job.counter.Increment(1, tls);
      }
      match queue {
        case HighQueue => ok, highPriority := Enqueue(highPriority, job, highCapacity);
        case NormalQueue => ok, normalPriority := Enqueue(normalPriority, job, normalCapacity);
        case LowQueue => ok, lowPriority := Enqueue(lowPriority, job, lowCapacity);
        case IoQueue => ok, io := Enqueue(io, job, ioCapacity);
      }
    }

    /** mpmc_queue::enqueue, on the contents (MpmcObject). */
    static method Enqueue(q: seq<JobInfo>, job: JobInfo, capacity: nat) returns (ok: bool, r: seq<JobInfo>)
      ensures ok == (|q| < capacity) && r == if ok then q + [job] else q
    {
      if |q| < capacity {
        return true, q + [job];
      }
      return false, q;
    }

    /** The machine's fiber f is about to switch to g, and this object with it. */
    ghost predicate PreparedSwitch(s: FiberMachine.State, u: nat, f: nat, tls: TLS, g: nat)
      reads this, idleFibers, tls
    {
      Shows(s, u, tls) && f < |s.stage| && s.stage[f] == FiberMachine.PoolSwitch(g)
    }
  }
}
