/** The wait-slot protocol of a counter as a step machine.

    Any number of fibers concurrently increment or decrement the counter, each then scanning the
    slots for waiters of the value it produced, and register to wait for a value.  Every atomic
    operation of the source is one step, so is the load of a slot's target; the three plain stores
    that fill a slot are one step, since until the slot is armed only its target is ever read by
    others.  `phase`, `arms`, `outcome`, `woken`, `answers` and `hits` are history: they never
    influence a step. */
module WaitSlots {

  /** 2^32: the counter is a uint32_t. */
  const RANGE: nat := 0x1_0000_0000

  datatype Slot = Slot(fiber: nat, flag: nat, target: nat, inUse: bool)

  /** What AddWaitingFiber is asked to register. */
  datatype Request = Request(fiber: nat, flag: nat, target: nat)

  /** Where a fiber stands.  `arm` numbers the arming it made, or whose slot it won. */
  datatype Local =
    | Away
    // AddWaitingFiber
    | Acquire(i: nat, req: Request)                // before the compare-exchange on _freeWaitingSlots[i]
    | Fill(i: nat, req: Request)                   // before storing the slot's fields
    | Arming(i: nat, req: Request)                 // before _inUse.store(false)
    | Recheck(i: nat, arm: nat)                    // before loading _counter
    | TestUse(i: nat, arm: nat, seen: nat)         // before loading _inUse
    | TestTarget(i: nat, arm: nat, seen: nat)      // before comparing _targetValue with the counter read
    | Cancel(i: nat, arm: nat, seen: nat)          // before the compare-exchange on _inUse
    | Unslot(i: nat, arm: nat, own: nat)           // won it; before _freeWaitingSlots[i].store(true)
    | Answer(own: nat, done: bool)                 // returns done
    | SlotsFull                                    // throws
    // Increment or Decrement, after the fetch_add or fetch_sub: CheckWaitingFibers(value)
    | Scan(i: nat, value: nat)                     // before loading _freeWaitingSlots[i]
    | ScanUse(i: nat, value: nat)                  // before loading _inUse
    | ScanTarget(i: nat, value: nat)               // before comparing _targetValue
    | ScanTake(i: nat, value: nat)                 // before the compare-exchange on _inUse
    | ScanPush(i: nat, value: nat, arm: nat)       // won it; before appending to _readyFibers
    | ScanFree(i: nat, value: nat, arm: nat)       // before _freeWaitingSlots[i].store(true)

  datatype Phase =
    | Free
    | Held(who: nat)                // acquired by a waiter that has not armed it yet
    | Armed(arm: nat)
    | Taken(who: nat, arm: nat)     // the arming was consumed by who, the slot not yet freed

  datatype Arm = Arm(maker: nat, req: Request, at: nat)

  datatype Outcome =
    | Open
    | Cancelled(who: nat)
    | Won(who: nat)                 // a scanner won the slot
    | Woken(who: nat, value: nat, at: nat)   // and has put the fiber on its ready list (entry `at`)

  datatype Entry = Entry(fiber: nat, flag: nat, arm: nat, who: nat)

  datatype Counter = Counter(
    value: nat,                     // _counter
    free: seq<bool>,                // _freeWaitingSlots
    slots: seq<Slot>,               // _waitingFibers
    fibers: seq<Local>,
    phase: seq<Phase>,
    arms: seq<Arm>,                 // every arming, in order
    outcome: seq<Outcome>,          // what became of each
    woken: seq<Entry>,              // every entry put on a ready list, in order
    answers: map<nat, bool>,        // arming -> what AddWaitingFiber returned to its maker
    hits: set<nat>)                 // armings during whose life the counter has had their target value

  predicate Shaped(c: Counter) {
    |c.free| == |c.slots| == |c.phase| && |c.outcome| == |c.arms|
  }

  /** InternalInit: all slots free, and _inUse initially true. */
  function Init(slots: nat, fibers: nat): (c: Counter)
    ensures Shaped(c)
  {
    Counter(0, seq(slots, i => true), seq(slots, i => Slot(0xFFFF, 0, 0, true)), seq(fibers, f => Away),
            seq(slots, i => Free), [], [], [], map[], {})
  }

  datatype Action =
    | Add(n: int)                   // Increment(n) for n > 0, Decrement(-n) otherwise: the fetch
    | Register(req: Request)        // call AddWaitingFiber
    | Go                            // the next step of whatever the fiber is doing
    | Leave                         // return from it

  function Set(c: Counter, f: nat, l: Local): Counter
    requires f < |c.fibers|
  {
    c.(fibers := c.fibers[f := l])
  }

  /** As a uint32_t: the number below 2^32 that differs from x by a multiple of 2^32. */
  function Wrapped(x: int): (r: nat)
    ensures r < 0x1_0000_0000 && (x - r) % 0x1_0000_0000 == 0
    ensures 0 <= x < 0x1_0000_0000 ==> r == x
  {
    x % RANGE
  }

  /** The armings so far that wait for v. */
  function WaitingFor(c: Counter, v: nat): (r: set<nat>)
    ensures forall m :: m in r <==> 0 <= m < |c.arms| && c.arms[m].req.target == v
  {
    set m | 0 <= m < |c.arms| && c.arms[m].req.target == v
  }

  function AddStep(c: Counter, f: nat, n: int): Counter
    requires f < |c.fibers|
  {
    var v := Wrapped(c.value + n);
    Set(c, f, Scan(0, v)).(value := v, hits := c.hits + WaitingFor(c, v))
  }

  /** The arming a slot carries, for the history. */
  function ArmingIn(c: Counter, i: nat): nat
    requires i < |c.phase|
  {
    if c.phase[i].Armed? then c.phase[i].arm else 0
  }

  function Note(outcome: seq<Outcome>, m: nat, o: Outcome): (r: seq<Outcome>)
    ensures |r| == |outcome|
  {
    if m < |outcome| then outcome[m := o] else outcome
  }

  predicate Scanning(l: Local) {
    l.Scan? || l.ScanUse? || l.ScanTarget? || l.ScanTake? || l.ScanPush? || l.ScanFree?
  }

  /** One step inside AddWaitingFiber. */
  function WaiterStep(c: Counter, f: nat): (r: Counter)
    requires Shaped(c) && f < |c.fibers|
    ensures Shaped(r)
  {
    match c.fibers[f]
    case Acquire(i, req) =>
      if i >= |c.slots| then Set(c, f, SlotsFull)
      else if c.free[i] then Set(c, f, Fill(i, req)).(free := c.free[i := false], phase := c.phase[i := Held(f)])
      else Set(c, f, Acquire(i + 1, req))
    case Fill(i, req) =>
      if i >= |c.slots| then c
      else Set(c, f, Arming(i, req)).(slots := c.slots[i := Slot(req.fiber, req.flag, req.target, c.slots[i].inUse)])
    case Arming(i, req) =>
      if i >= |c.slots| then c
      else
        var m := |c.arms|;
        Set(c, f, Recheck(i, m)).(
          slots := c.slots[i := c.slots[i].(inUse := false)], phase := c.phase[i := Armed(m)],
          arms := c.arms + [Arm(f, req, i)], outcome := c.outcome + [Open],
          hits := if c.value == req.target then c.hits + {m} else c.hits)
    case Recheck(i, m) => Set(c, f, TestUse(i, m, c.value))
    case TestUse(i, m, v) =>
      if i >= |c.slots| then c
      else if c.slots[i].inUse then GiveAnswer(c, f, m, false)
      else Set(c, f, TestTarget(i, m, v))
    case TestTarget(i, m, v) =>
      if i >= |c.slots| then c
      else if c.slots[i].target != v then GiveAnswer(c, f, m, false)
      else Set(c, f, Cancel(i, m, v))
    case Cancel(i, m, v) =>
      if i >= |c.slots| then c
      else if c.slots[i].inUse then GiveAnswer(c, f, m, false)
      else
        var won := ArmingIn(c, i);
        Set(c, f, Unslot(i, won, m)).(
          slots := c.slots[i := c.slots[i].(inUse := true)], phase := c.phase[i := Taken(f, won)],
          outcome := Note(c.outcome, won, Cancelled(f)))
    case Unslot(i, _, m) =>
      if i >= |c.slots| then c
      else GiveAnswer(c, f, m, true).(free := c.free[i := true], phase := c.phase[i := Free])
    case _ => c
  }

  function GiveAnswer(c: Counter, f: nat, m: nat, done: bool): Counter
    requires f < |c.fibers|
  {
    Set(c, f, Answer(m, done)).(answers := c.answers[m := done])
  }

  /** One step inside CheckWaitingFibers. */
  function ScannerStep(c: Counter, f: nat): (r: Counter)
    requires Shaped(c) && f < |c.fibers|
    ensures Shaped(r)
  {
    match c.fibers[f]
    case Scan(i, v) =>
      if i >= |c.slots| then Set(c, f, Away)
      else if c.free[i] then Set(c, f, Scan(i + 1, v))
      else Set(c, f, ScanUse(i, v))
    case ScanUse(i, v) =>
      if i >= |c.slots| then c
      else if c.slots[i].inUse then Set(c, f, Scan(i + 1, v))
      else Set(c, f, ScanTarget(i, v))
    case ScanTarget(i, v) =>
      if i >= |c.slots| then c
      else if c.slots[i].target != v then Set(c, f, Scan(i + 1, v))
      else Set(c, f, ScanTake(i, v))
    case ScanTake(i, v) =>
      if i >= |c.slots| then c
      else if c.slots[i].inUse then Set(c, f, Scan(i + 1, v))
      else
        var won := ArmingIn(c, i);
        Set(c, f, ScanPush(i, v, won)).(
          slots := c.slots[i := c.slots[i].(inUse := true)], phase := c.phase[i := Taken(f, won)],
          outcome := Note(c.outcome, won, Won(f)))
    case ScanPush(i, v, m) =>
      if i >= |c.slots| then c
      else
        Set(c, f, ScanFree(i, v, m)).(
          woken := c.woken + [Entry(c.slots[i].fiber, c.slots[i].flag, m, f)],
          outcome := Note(c.outcome, m, Woken(f, v, |c.woken|)))
    case ScanFree(i, v, _) =>
      if i >= |c.slots| then c
      else Set(c, f, Scan(i + 1, v)).(free := c.free[i := true], phase := c.phase[i := Free])
    case _ => c
  }

  /** A step of fiber f; an action that does not fit where f stands changes nothing. */
  function Step(c: Counter, f: nat, a: Action): (r: Counter)
    requires Shaped(c)
    ensures Shaped(r)
  {
    if f >= |c.fibers| then c else
    match a
    case Add(n) => if c.fibers[f] == Away then AddStep(c, f, n) else c
    case Register(req) => if c.fibers[f] == Away then Set(c, f, Acquire(0, req)) else c
    case Go => if Scanning(c.fibers[f]) then ScannerStep(c, f) else WaiterStep(c, f)
    case Leave => if c.fibers[f].Answer? || c.fibers[f] == SlotsFull then Set(c, f, Away) else c
  }

  type Schedule = seq<(nat, Action)>

  function Run(c: Counter, sched: Schedule): (r: Counter)
    requires Shaped(c)
    ensures Shaped(r)
    decreases |sched|
  {
    if sched == [] then c
    else Step(Run(c, sched[..|sched| - 1]), sched[|sched| - 1].0, sched[|sched| - 1].1)
  }
}
