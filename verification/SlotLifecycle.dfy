/** The invariant of the wait slots: who owns a slot when, and what became of every arming. */
module SlotLifecycle {
  import opened WaitSlots

  predicate Carries(s: Slot, req: Request) {
    s.fiber == req.fiber && s.flag == req.flag && s.target == req.target
  }

  /** Fiber f won arming m in slot i and has not freed the slot yet. */
  ghost predicate Winner(c: Counter, f: nat, i: nat, m: nat)
    requires Shaped(c) && m < |c.arms|
  {
    f < |c.fibers| &&
    match c.fibers[f]
    case Unslot(j, won, _) => j == i && won == m && c.outcome[m] == Cancelled(f)
    case ScanPush(j, _, won) => j == i && won == m && c.outcome[m] == Won(f)
    case ScanFree(j, v, won) =>
      j == i && won == m && c.outcome[m].Woken? && c.outcome[m].who == f && c.outcome[m].value == v
    case _ => false
  }

  /** Fiber f is filling slot i. */
  ghost predicate Filler(c: Counter, f: nat, i: nat)
    requires Shaped(c) && i < |c.slots|
  {
    f < |c.fibers| &&
    match c.fibers[f]
    case Fill(j, _) => j == i
    case Arming(j, req) => j == i && Carries(c.slots[i], req)
    case _ => false
  }

  ghost predicate SlotOk(c: Counter, i: nat)
    requires Shaped(c) && i < |c.slots|
  {
    match c.phase[i]
    case Free => c.free[i] && c.slots[i].inUse
    case Held(f) => !c.free[i] && c.slots[i].inUse && Filler(c, f, i)
    case Armed(m) =>
      !c.free[i] && !c.slots[i].inUse
      && m < |c.arms| && c.arms[m].at == i && c.outcome[m] == Open && Carries(c.slots[i], c.arms[m].req)
    case Taken(f, m) =>
      !c.free[i] && c.slots[i].inUse
      && m < |c.arms| && c.arms[m].at == i && Carries(c.slots[i], c.arms[m].req) && Winner(c, f, i, m)
  }

  /** Fiber f has armed slot i with arming m and not been answered yet. */
  ghost predicate Pending(c: Counter, f: nat, i: nat, m: nat) {
    m < |c.arms| && c.arms[m].maker == f && c.arms[m].at == i && m !in c.answers
  }

  ghost predicate FiberOk(c: Counter, f: nat)
    requires Shaped(c) && f < |c.fibers|
  {
    match c.fibers[f]
    case Fill(i, _) => i < |c.slots| && c.phase[i] == Held(f)
    case Arming(i, _) => i < |c.slots| && c.phase[i] == Held(f)
    case Recheck(i, m) => i < |c.slots| && Pending(c, f, i, m)
    case TestUse(i, m, v) => i < |c.slots| && Pending(c, f, i, m) && (v == c.arms[m].req.target ==> m in c.hits)
    case TestTarget(i, m, v) => i < |c.slots| && Pending(c, f, i, m) && (v == c.arms[m].req.target ==> m in c.hits)
    case Cancel(i, m, v) => i < |c.slots| && Pending(c, f, i, m) && (v == c.arms[m].req.target ==> m in c.hits)
    case Unslot(i, won, m) => i < |c.slots| && c.phase[i] == Taken(f, won) && Pending(c, f, i, m)
    case ScanUse(i, _) => i < |c.slots|
    case ScanTarget(i, _) => i < |c.slots|
    case ScanTake(i, _) => i < |c.slots|
    case ScanPush(i, _, m) => i < |c.slots| && c.phase[i] == Taken(f, m)
    case ScanFree(i, _, m) => i < |c.slots| && c.phase[i] == Taken(f, m)
    case _ => true
  }

  ghost predicate ArmOk(c: Counter, m: nat)
    requires Shaped(c) && m < |c.arms|
  {
    var i := c.arms[m].at;
    && i < |c.slots| && c.arms[m].maker < |c.fibers|
    && (c.arms[m].req.target == c.value ==> m in c.hits)
    && match c.outcome[m]
       case Open => c.phase[i] == Armed(m)
       case Won(f) => c.phase[i] == Taken(f, m)
       case Woken(_, _, j) => j < |c.woken| && c.woken[j].arm == m
       case Cancelled(_) => true
  }

  ghost predicate EntryOk(c: Counter, j: nat)
    requires Shaped(c) && j < |c.woken|
  {
    var e := c.woken[j];
    && e.arm < |c.arms| && c.outcome[e.arm].Woken? && c.outcome[e.arm].at == j && c.outcome[e.arm].who == e.who
    && e.fiber == c.arms[e.arm].req.fiber && e.flag == c.arms[e.arm].req.flag
  }

  ghost predicate Inv(c: Counter) {
    && Shaped(c)
    && (forall i: nat | i < |c.slots| :: SlotOk(c, i))
    && (forall f: nat | f < |c.fibers| :: FiberOk(c, f))
    && (forall m: nat | m < |c.arms| :: ArmOk(c, m))
    && (forall j: nat | j < |c.woken| :: EntryOk(c, j))
    && (forall m | m in c.hits :: m < |c.arms|)
    && (forall m | m in c.answers :: m < |c.arms|)
  }

  lemma InitInv(slots: nat, fibers: nat)
    ensures Inv(Init(slots, fibers))
  {
  }

  /** The invariant but for fiber f, which is about to move: what must be re-established. */
  lemma Assemble(c: Counter, r: Counter, f: nat)
    requires Inv(c) && Shaped(r) && f < |c.fibers| && |r.fibers| == |c.fibers| && |r.slots| == |c.slots|
    requires c.value == r.value && c.arms == r.arms && c.hits == r.hits
    requires forall i: nat | i < |r.slots| :: SlotOk(r, i)
    requires forall g: nat | g < |r.fibers| :: FiberOk(r, g)
    requires forall m: nat | m < |r.arms| :: ArmOk(r, m)
    requires forall j: nat | j < |r.woken| :: EntryOk(r, j)
    requires forall m | m in r.answers :: m < |r.arms|
    ensures Inv(r)
  {
  }

  /** Fiber f owns no slot. */
  predicate OwnsNothing(l: Local) {
    !l.Fill? && !l.Arming? && !l.Unslot? && !l.ScanPush? && !l.ScanFree?
  }

  /** Steps that only move fiber f, perhaps answering its own registration. */
  lemma LocalStep(c: Counter, f: nat, l: Local, answers: map<nat, bool>, own: nat)
    requires Inv(c) && f < |c.fibers| && OwnsNothing(c.fibers[f])
    requires FiberOk(Set(c, f, l).(answers := answers), f)
    requires answers == c.answers
          || (own < |c.arms| && c.arms[own].maker == f && answers == c.answers[own := false])
    ensures Inv(Set(c, f, l).(answers := answers))
  {
    var r := Set(c, f, l).(answers := answers);
    forall i: nat | i < |r.slots| ensures SlotOk(r, i) { assert SlotOk(c, i); }
    forall g: nat | g < |r.fibers| ensures FiberOk(r, g) { assert FiberOk(c, g); }
    forall m: nat | m < |r.arms| ensures ArmOk(r, m) { assert ArmOk(c, m); }
    forall j: nat | j < |r.woken| ensures EntryOk(r, j) { assert EntryOk(c, j); }
  }

  lemma AddKeepsInv(c: Counter, f: nat, n: int)
    requires Inv(c) && f < |c.fibers| && c.fibers[f] == Away
    ensures Inv(AddStep(c, f, n))
  {
    var r := AddStep(c, f, n);
    forall i: nat | i < |r.slots| ensures SlotOk(r, i) { assert SlotOk(c, i); }
    forall g: nat | g < |r.fibers| ensures FiberOk(r, g) { assert FiberOk(c, g); }
    forall m: nat | m < |r.arms| ensures ArmOk(r, m) { assert ArmOk(c, m); }
    forall j: nat | j < |r.woken| ensures EntryOk(r, j) { assert EntryOk(c, j); }
  }

  lemma AcquireKeepsInv(c: Counter, f: nat)
    requires Inv(c) && f < |c.fibers| && c.fibers[f].Acquire?
    requires c.fibers[f].i < |c.slots| && c.free[c.fibers[f].i]
    ensures Inv(Step(c, f, Go))
  {
    var r := Step(c, f, Go);
    var s := c.fibers[f].i;
    assert SlotOk(c, s);
    forall i: nat | i < |r.slots| ensures SlotOk(r, i) { assert SlotOk(c, i); }
    forall g: nat | g < |r.fibers| ensures FiberOk(r, g) { assert FiberOk(c, g); }
    forall m: nat | m < |r.arms| ensures ArmOk(r, m) { assert ArmOk(c, m); }
    forall j: nat | j < |r.woken| ensures EntryOk(r, j) { assert EntryOk(c, j); }
    Assemble(c, r, f);
  }

  lemma FillKeepsInv(c: Counter, f: nat)
    requires Inv(c) && f < |c.fibers| && c.fibers[f].Fill?
    ensures Inv(Step(c, f, Go))
  {
    var r := Step(c, f, Go);
    assert FiberOk(c, f) && SlotOk(c, c.fibers[f].i);
    forall i: nat | i < |r.slots| ensures SlotOk(r, i) { assert SlotOk(c, i); }
    forall g: nat | g < |r.fibers| ensures FiberOk(r, g) { assert FiberOk(c, g); }
    forall m: nat | m < |r.arms| ensures ArmOk(r, m) { assert ArmOk(c, m); }
    forall j: nat | j < |r.woken| ensures EntryOk(r, j) { assert EntryOk(c, j); }
    Assemble(c, r, f);
  }

  lemma ArmingKeepsInv(c: Counter, f: nat)
    requires Inv(c) && f < |c.fibers| && c.fibers[f].Arming?
    ensures Inv(Step(c, f, Go))
  {
    var r := Step(c, f, Go);
    assert FiberOk(c, f) && SlotOk(c, c.fibers[f].i);
    forall i: nat | i < |r.slots| ensures SlotOk(r, i) { assert SlotOk(c, i); }
    forall g: nat | g < |r.fibers| ensures FiberOk(r, g) { assert FiberOk(c, g); }
    forall m: nat | m < |r.arms| ensures ArmOk(r, m) { if m < |c.arms| { assert ArmOk(c, m); } }
    forall j: nat | j < |r.woken| ensures EntryOk(r, j) { assert EntryOk(c, j); }
  }

  /** The state after fiber f has won arming m in slot i and moved to l. */
  function Win(c: Counter, f: nat, i: nat, m: nat, l: Local, o: Outcome): Counter
    requires Shaped(c) && f < |c.fibers| && i < |c.slots| && m < |c.arms|
  {
    Set(c, f, l).(slots := c.slots[i := c.slots[i].(inUse := true)], phase := c.phase[i := Taken(f, m)],
                  outcome := c.outcome[m := o])
  }

  lemma WinKeepsInv(c: Counter, f: nat, i: nat, m: nat, l: Local, o: Outcome)
    requires Inv(c) && f < |c.fibers| && OwnsNothing(c.fibers[f])
    requires i < |c.slots| && m < |c.arms| && c.phase[i] == Armed(m)
    requires (l.Unslot? && l.i == i && l.arm == m && o == Cancelled(f) && Pending(c, f, i, l.own))
          || (l.ScanPush? && l.i == i && l.arm == m && o == Won(f))
    ensures Inv(Win(c, f, i, m, l, o))
  {
    var r := Win(c, f, i, m, l, o);
    assert SlotOk(c, i);
    forall j: nat | j < |r.slots| ensures SlotOk(r, j) { assert SlotOk(c, j); }
    forall g: nat | g < |r.fibers| ensures FiberOk(r, g) { assert FiberOk(c, g); }
    forall a: nat | a < |r.arms| ensures ArmOk(r, a) { assert ArmOk(c, a); }
    forall j: nat | j < |r.woken| ensures EntryOk(r, j) { assert EntryOk(c, j); }
    Assemble(c, r, f);
  }

  lemma PushKeepsInv(c: Counter, f: nat)
    requires Inv(c) && f < |c.fibers| && c.fibers[f].ScanPush?
    ensures Inv(Step(c, f, Go))
  {
    var r := Step(c, f, Go);
    assert FiberOk(c, f) && SlotOk(c, c.fibers[f].i);
    forall i: nat | i < |r.slots| ensures SlotOk(r, i) { assert SlotOk(c, i); }
    forall g: nat | g < |r.fibers| ensures FiberOk(r, g) { assert FiberOk(c, g); }
    forall m: nat | m < |r.arms| ensures ArmOk(r, m) { assert ArmOk(c, m); }
    forall j: nat | j < |r.woken| ensures EntryOk(r, j) { if j < |c.woken| { assert EntryOk(c, j); } }
    Assemble(c, r, f);
  }

  /** Freeing slot i, won by f as arming m, and going on to l. */
  function Freed(c: Counter, f: nat, i: nat, l: Local, answers: map<nat, bool>): Counter
    requires f < |c.fibers| && i < |c.free| && i < |c.phase|
  {
    c.(fibers := c.fibers[f := l], free := c.free[i := true], phase := c.phase[i := Free], answers := answers)
  }

  lemma FreedKeepsInv(c: Counter, f: nat, i: nat, m: nat, l: Local, answers: map<nat, bool>)
    requires Inv(c) && f < |c.fibers| && i < |c.slots| && c.phase[i] == Taken(f, m)
    requires (l.Scan? || l.Answer?) && (c.fibers[f].Unslot? || c.fibers[f].ScanFree?)
    requires forall n | n in answers :: n in c.answers || (n < |c.arms| && c.arms[n].maker == f)
    ensures Inv(Freed(c, f, i, l, answers))
  {
    var r := Freed(c, f, i, l, answers);
    assert SlotOk(c, i) && FiberOk(c, f);
    forall j: nat | j < |r.slots| ensures SlotOk(r, j) { assert SlotOk(c, j); }
    forall g: nat | g < |r.fibers| ensures FiberOk(r, g) { assert FiberOk(c, g); }
    forall n: nat | n < |r.arms| ensures ArmOk(r, n) { assert ArmOk(c, n); }
    forall j: nat | j < |r.woken| ensures EntryOk(r, j) { assert EntryOk(c, j); }
    Assemble(c, r, f);
  }

  lemma FreeKeepsInv(c: Counter, f: nat)
    requires Inv(c) && f < |c.fibers| && (c.fibers[f].Unslot? || c.fibers[f].ScanFree?)
    ensures Inv(Step(c, f, Go))
  {
    assert FiberOk(c, f);
    match c.fibers[f] {
      case Unslot(i, won, m) => FreedKeepsInv(c, f, i, won, Answer(m, true), c.answers[m := true]);
      case ScanFree(i, v, m) => FreedKeepsInv(c, f, i, m, Scan(i + 1, v), c.answers);
    }
    hide Inv;
  }

  lemma WaiterKeepsInv(c: Counter, f: nat)
    requires Inv(c) && f < |c.fibers| && !Scanning(c.fibers[f])
    ensures Inv(Step(c, f, Go))
  {
    assert FiberOk(c, f);
    var r := Step(c, f, Go);
    match c.fibers[f] {
      case Acquire(i, req) =>
        if i < |c.slots| && c.free[i] { AcquireKeepsInv(c, f); } else { LocalStep(c, f, r.fibers[f], c.answers, 0); }
      case Fill(_, _) => FillKeepsInv(c, f);
      case Arming(_, _) => ArmingKeepsInv(c, f);
      case Unslot(_, _, _) => FreeKeepsInv(c, f);
      case Recheck(i, m) =>
        assert ArmOk(c, m);
        LocalStep(c, f, r.fibers[f], r.answers, m);
      case TestUse(i, m, v) => LocalStep(c, f, r.fibers[f], r.answers, m);
      case TestTarget(i, m, v) => LocalStep(c, f, r.fibers[f], r.answers, m);
      case Cancel(i, m, v) =>
        assert SlotOk(c, i);
        if c.slots[i].inUse {
          LocalStep(c, f, r.fibers[f], r.answers, m);
        } else {
          var won := c.phase[i].arm;
          WinKeepsInv(c, f, i, won, Unslot(i, won, m), Cancelled(f));
        }
      case _ =>
    }
  }

  lemma ScannerKeepsInv(c: Counter, f: nat)
    requires Inv(c) && f < |c.fibers| && Scanning(c.fibers[f])
    ensures Inv(Step(c, f, Go))
  {
    assert FiberOk(c, f);
    var r := Step(c, f, Go);
    match c.fibers[f] {
      case ScanPush(_, _, _) => PushKeepsInv(c, f);
      case ScanFree(_, _, _) => FreeKeepsInv(c, f);
      case ScanTake(i, v) =>
        assert SlotOk(c, i);
        if c.slots[i].inUse {
          LocalStep(c, f, r.fibers[f], r.answers, 0);
        } else {
          var won := c.phase[i].arm;
          WinKeepsInv(c, f, i, won, ScanPush(i, v, won), Won(f));
        }
      case Scan(_, _) => LocalStep(c, f, r.fibers[f], r.answers, 0);
      case ScanUse(_, _) => LocalStep(c, f, r.fibers[f], r.answers, 0);
      case ScanTarget(_, _) => LocalStep(c, f, r.fibers[f], r.answers, 0);
      case _ =>
    }
  }

  lemma StepKeepsInv(c: Counter, f: nat, a: Action)
    requires Inv(c)
    ensures Inv(Step(c, f, a))
  {
    if f < |c.fibers| {
      match a {
        case Add(n) => if c.fibers[f] == Away { AddKeepsInv(c, f, n); }
        case Register(req) => if c.fibers[f] == Away { LocalStep(c, f, Acquire(0, req), c.answers, 0); }
        case Leave => if c.fibers[f].Answer? || c.fibers[f] == SlotsFull { LocalStep(c, f, Away, c.answers, 0); }
        case Go => if Scanning(c.fibers[f]) { ScannerKeepsInv(c, f); } else { WaiterKeepsInv(c, f); }
      }
    }
  }

  lemma {:induction false} RunKeepsInv(c: Counter, sched: Schedule)
    requires Inv(c)
    ensures Inv(Run(c, sched))
    decreases |sched|
  {
    if sched != [] {
      RunKeepsInv(c, sched[..|sched| - 1]);
      StepKeepsInv(Run(c, sched[..|sched| - 1]), sched[|sched| - 1].0, sched[|sched| - 1].1);
    }
  }
}
