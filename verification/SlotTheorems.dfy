/** What the wait slots promise for every interleaving and every reuse of slots: a strict slot
    life cycle, conservation of armings, and no lost wake-up. */
module SlotTheorems {
  import opened WaitSlots
  import opened SlotLifecycle

  /** One turn of a slot's cycle free, acquired, armed, consumed, free, taken by fiber f. */
  predicate NextPhase(p: Phase, q: Phase, f: nat, arms: nat) {
    || (p == Free && q == Held(f))
    || (p == Held(f) && q == Armed(arms))
    || (p.Armed? && q == Taken(f, p.arm))
    || (p.Taken? && p.who == f && q == Free)
  }

  /** A step turns at most the slot it works on, and only one notch; a free slot has _inUse set. */
  lemma SlotLifeCycle(c: Counter, f: nat, a: Action, i: nat)
    requires Inv(c) && i < |c.slots|
    ensures var r := Step(c, f, a);
            && (r.phase[i] == c.phase[i] || NextPhase(c.phase[i], r.phase[i], f, |c.arms|))
            && (r.free[i] <==> r.phase[i] == Free) && (r.free[i] ==> r.slots[i].inUse)
            && (r.phase[i].Armed? <==> !r.slots[i].inUse)
  {
    StepKeepsInv(c, f, a);
    assert SlotOk(Step(c, f, a), i);
    assert SlotOk(c, i);
    if f < |c.fibers| {
      assert FiberOk(c, f);
      hide Inv;
    }
  }

  ghost function ArmedSlots(c: Counter): (r: set<nat>) {
    set i: nat | i < |c.phase| && c.phase[i].Armed?
  }

  ghost function Unresolved(outcome: seq<Outcome>): (r: set<nat>) {
    set m: nat | m < |outcome| && outcome[m] == Open
  }

  ghost function Resolved(outcome: seq<Outcome>): (r: set<nat>) {
    set m: nat | m < |outcome| && outcome[m] != Open
  }

  lemma {:induction false} SameSize(a: set<nat>, b: set<nat>, to: map<nat, nat>)
    requires to.Keys == a && to.Values == b
    requires forall x, y | x in to && y in to && to[x] == to[y] :: x == y
    ensures |a| == |b|
    decreases a
  {
    if a != {} {
      var x :| x in a;
      var rest := to - {x};
      forall y | y in b && y != to[x] ensures y in rest.Values {
        var z :| z in to && to[z] == y;
        assert z in rest && rest[z] == y;
      }
      assert b - {to[x]} == rest.Values;
      SameSize(a - {x}, b - {to[x]}, rest);
    } else {
      assert b == {};
    }
  }

  lemma {:induction false} OutcomesSplit(outcome: seq<Outcome>)
    ensures |Unresolved(outcome)| + |Resolved(outcome)| == |outcome|
  {
    if outcome != [] {
      var n := |outcome| - 1;
      var front := outcome[..n];
      OutcomesSplit(front);
      if outcome[n] == Open {
        assert Unresolved(outcome) == Unresolved(front) + {n} && Resolved(outcome) == Resolved(front);
      } else {
        assert Unresolved(outcome) == Unresolved(front) && Resolved(outcome) == Resolved(front) + {n};
      }
    }
  }

  /** An unresolved arming is the one its slot carries. */
  lemma UnresolvedIsArmed(c: Counter, m: nat)
    requires Inv(c) && m in Unresolved(c.outcome)
    ensures m < |c.arms| && c.arms[m].at in ArmedSlots(c) && c.phase[c.arms[m].at] == Armed(m)
  {
    assert ArmOk(c, m);
  }

  lemma ArmedIsUnresolved(c: Counter, i: nat)
    requires Inv(c) && i in ArmedSlots(c)
    ensures c.phase[i].arm in Unresolved(c.outcome) && c.arms[c.phase[i].arm].at == i
  {
    assert SlotOk(c, i);
  }

  /** Armings made = armings consumed + slots currently armed. */
  lemma ArmingsConserved(c: Counter)
    requires Inv(c)
    ensures |c.arms| == |Resolved(c.outcome)| + |ArmedSlots(c)|
  {
    forall m | m in Unresolved(c.outcome) ensures m < |c.arms| && c.arms[m].at in ArmedSlots(c) {
      UnresolvedIsArmed(c, m);
    }
    var to := map m | m in Unresolved(c.outcome) :: c.arms[m].at;
    forall m, n | m in to && n in to && to[m] == to[n] ensures m == n {
      UnresolvedIsArmed(c, m);
      UnresolvedIsArmed(c, n);
    }
    forall i | i in ArmedSlots(c) ensures i in to.Values {
      ArmedIsUnresolved(c, i);
      assert to[c.phase[i].arm] == i;
    }
    assert to.Values == ArmedSlots(c);
    SameSize(Unresolved(c.outcome), ArmedSlots(c), to);
    OutcomesSplit(c.outcome);
  }

  /** A ready-list entry carries the fiber and flag of the very arming that was consumed. */
  lemma EntryIsOfItsArming(c: Counter, j: nat)
    requires Inv(c) && j < |c.woken|
    ensures var e := c.woken[j];
            e.arm < |c.arms| && c.outcome[e.arm].Woken?
            && e.fiber == c.arms[e.arm].req.fiber && e.flag == c.arms[e.arm].req.flag
  {
    assert EntryOk(c, j);
  }

  /** No arming ever gets a second ready-list entry. */
  lemma WokenOnce(c: Counter, j: nat, k: nat)
    requires Inv(c) && j < |c.woken| && k < |c.woken| && c.woken[j].arm == c.woken[k].arm
    ensures j == k
  {
    assert EntryOk(c, j) && EntryOk(c, k);
  }

  // ---------------------------------------------------------------------------------------------
  // No lost wake-up

  /** The waiter of arming m in slot i has still to load the counter, or has read the target and not
      tried its compare-exchange. */
  predicate WaiterWillSee(c: Counter, i: nat, m: nat)
    requires Shaped(c) && m < |c.arms|
  {
    var f := c.arms[m].maker;
    f < |c.fibers| &&
    match c.fibers[f]
    case Recheck(j, n) => j == i && n == m
    case TestUse(j, n, v) => j == i && n == m && v == c.arms[m].req.target
    case TestTarget(j, n, v) => j == i && n == m && v == c.arms[m].req.target
    case Cancel(j, n, v) => j == i && n == m && v == c.arms[m].req.target
    case _ => false
  }

  /** A scanner carrying v that has not passed slot i. */
  predicate ScannerComing(l: Local, i: nat, v: nat) {
    match l
    case Scan(j, w) => j <= i && w == v
    case ScanUse(j, w) => j <= i && w == v
    case ScanTarget(j, w) => j <= i && w == v
    case ScanTake(j, w) => j <= i && w == v
    case ScanPush(j, w, _) => j < i && w == v
    case ScanFree(j, w, _) => j < i && w == v
    case _ => false
  }

  ghost predicate SomebodyComing(c: Counter, i: nat, v: nat) {
    exists g: nat :: g < |c.fibers| && ScannerComing(c.fibers[g], i, v)
  }

  /** An armed slot whose target is the counter's value is about to be noticed. */
  ghost predicate Covered(c: Counter, i: nat)
    requires Shaped(c) && i < |c.slots|
  {
    c.phase[i].Armed? && c.phase[i].arm < |c.arms| && c.arms[c.phase[i].arm].req.target == c.value ==>
      WaiterWillSee(c, i, c.phase[i].arm) || SomebodyComing(c, i, c.value)
  }

  ghost predicate AllCovered(c: Counter)
    requires Shaped(c)
  {
    forall i: nat | i < |c.slots| :: Covered(c, i)
  }

  /** A scanner that was coming to an armed slot of its value is still coming after its own step,
      unless the slot is no longer armed. */
  lemma ScannerStaysComing(c: Counter, g: nat, i: nat, v: nat)
    requires Inv(c) && g < |c.fibers| && i < |c.slots| && ScannerComing(c.fibers[g], i, v)
    requires c.phase[i].Armed? && c.phase[i].arm < |c.arms| && c.arms[c.phase[i].arm].req.target == v
    ensures var r := Step(c, g, Go); r.phase[i] != c.phase[i] || ScannerComing(r.fibers[g], i, v)
  {
    assert SlotOk(c, i) && FiberOk(c, g);
  }

  lemma WaiterStaysSeeing(c: Counter, i: nat)
    requires Inv(c) && i < |c.slots| && c.phase[i].Armed? && c.phase[i].arm < |c.arms|
    requires WaiterWillSee(c, i, c.phase[i].arm)
    requires c.arms[c.phase[i].arm].req.target == c.value
    ensures var r := Step(c, c.arms[c.phase[i].arm].maker, Go);
            r.phase[i] != c.phase[i] || WaiterWillSee(r, i, c.phase[i].arm)
  {
    assert SlotOk(c, i) && FiberOk(c, c.arms[c.phase[i].arm].maker);
  }

  lemma StepKeepsCovered(c: Counter, f: nat, a: Action, i: nat)
    requires Inv(c) && i < |c.slots| && Covered(c, i)
    ensures Covered(Step(c, f, a), i)
  {
    var r := Step(c, f, a);
    SlotLifeCycle(c, f, a, i);
    StepKeepsInv(c, f, a);
    if r.phase[i].Armed? && r.phase[i].arm < |r.arms| && r.arms[r.phase[i].arm].req.target == r.value
       && f < |c.fibers| {
      var m := r.phase[i].arm;
      assert SlotOk(r, i);
      if c.phase[i] != r.phase[i] {
        FreshArmingIsSeen(c, f, a, i);
      } else if a.Add? && c.fibers[f] == Away {
        assert ScannerComing(r.fibers[f], i, r.value);
      } else {
        assert SlotOk(c, i);
        ArmsOnlyGrow(c, f, a);
        if WaiterWillSee(c, i, m) {
          if c.arms[m].maker == f && a == Go {
            WaiterStaysSeeing(c, i);
          } else {
            BystanderStays(c, f, a, c.arms[m].maker);
          }
        } else {
          var g: nat :| g < |c.fibers| && ScannerComing(c.fibers[g], i, c.value);
          if g == f && a == Go {
            ScannerStaysComing(c, g, i, c.value);
          } else {
            BystanderStays(c, f, a, g);
          }
          assert ScannerComing(r.fibers[g], i, r.value);
        }
      }
    }
  }

  lemma FreshArmingIsSeen(c: Counter, f: nat, a: Action, i: nat)
    requires Inv(c) && i < |c.slots| && f < |c.fibers|
    requires !c.phase[i].Armed? && Step(c, f, a).phase[i].Armed?
    ensures var r := Step(c, f, a); r.phase[i].arm < |r.arms| && WaiterWillSee(r, i, r.phase[i].arm)
  {
    assert FiberOk(c, f);
  }

  lemma WaiterArms(c: Counter, f: nat)
    requires Shaped(c) && f < |c.fibers|
    ensures var r := WaiterStep(c, f);
            c.arms <= r.arms && |r.slots| == |c.slots| && |r.fibers| == |c.fibers| && r.value == c.value
  {
  }

  lemma ScannerArms(c: Counter, f: nat)
    requires Shaped(c) && f < |c.fibers|
    ensures var r := ScannerStep(c, f);
            c.arms <= r.arms && |r.slots| == |c.slots| && |r.fibers| == |c.fibers| && r.value == c.value
  {
  }

  lemma ArmsOnlyGrow(c: Counter, f: nat, a: Action)
    requires Shaped(c)
    ensures var r := Step(c, f, a);
            c.arms <= r.arms && |r.slots| == |c.slots| && |r.fibers| == |c.fibers|
            && (r.value != c.value ==> a.Add? && f < |c.fibers| && c.fibers[f] == Away)
  {
    if f < |c.fibers| {
      WaiterArms(c, f);
      ScannerArms(c, f);
    }
    hide WaiterStep, ScannerStep;
  }

  lemma WaiterMovesItself(c: Counter, f: nat, g: nat)
    requires Shaped(c) && f < |c.fibers| && g < |c.fibers| && g != f
    ensures |WaiterStep(c, f).fibers| == |c.fibers| && WaiterStep(c, f).fibers[g] == c.fibers[g]
  {
  }

  lemma ScannerMovesItself(c: Counter, f: nat, g: nat)
    requires Shaped(c) && f < |c.fibers| && g < |c.fibers| && g != f
    ensures |ScannerStep(c, f).fibers| == |c.fibers| && ScannerStep(c, f).fibers[g] == c.fibers[g]
  {
  }

  lemma OthersUnmoved(c: Counter, f: nat, a: Action, g: nat)
    requires Shaped(c) && g < |c.fibers|
    ensures |Step(c, f, a).fibers| == |c.fibers|
    ensures g != f ==> Step(c, f, a).fibers[g] == c.fibers[g]
  {
    ArmsOnlyGrow(c, f, a);
    if f < |c.fibers| && g != f {
      WaiterMovesItself(c, f, g);
      ScannerMovesItself(c, f, g);
    }
    hide WaiterStep, ScannerStep;
  }

  /** A fiber in the middle of a call only moves by its own Go. */
  lemma BystanderStays(c: Counter, f: nat, a: Action, g: nat)
    requires Shaped(c) && g < |c.fibers| && (g != f || a != Go)
    requires c.fibers[g] != Away && !c.fibers[g].Answer? && c.fibers[g] != SlotsFull
    ensures |Step(c, f, a).fibers| == |c.fibers| && Step(c, f, a).fibers[g] == c.fibers[g]
  {
    OthersUnmoved(c, f, a, g);
    hide WaiterStep, ScannerStep;
  }

  lemma {:induction false} RunKeepsCovered(c: Counter, sched: Schedule)
    requires Inv(c) && AllCovered(c)
    ensures AllCovered(Run(c, sched)) && |Run(c, sched).slots| == |c.slots|
    decreases |sched|
  {
    if sched != [] {
      var front := sched[..|sched| - 1];
      RunKeepsCovered(c, front);
      RunKeepsInv(c, front);
      var pre := Run(c, front);
      var (f, a) := sched[|sched| - 1];
      ArmsOnlyGrow(pre, f, a);
      forall i: nat | i < |c.slots| ensures Covered(Step(pre, f, a), i) {
        StepKeepsCovered(pre, f, a, i);
      }
    }
  }

  /** No increment, decrement or registration is in flight. */
  predicate Quiet(c: Counter) {
    forall f: nat | f < |c.fibers| :: c.fibers[f] == Away || c.fibers[f].Answer? || c.fibers[f] == SlotsFull
  }

  /** No lost wake-up, for every interleaving and every reuse: whenever nothing is in flight, no
      armed slot waits for the value the counter has. */
  lemma NoLostWakeup(slots: nat, fibers: nat, sched: Schedule)
    requires Quiet(Run(Init(slots, fibers), sched))
    ensures var c := Run(Init(slots, fibers), sched);
            forall i: nat | i < |c.slots| && c.phase[i].Armed? ::
              !c.slots[i].inUse && c.slots[i].target != c.value
  {
    var c0 := Init(slots, fibers);
    var c := Run(c0, sched);
    InitInv(slots, fibers);
    RunKeepsInv(c0, sched);
    RunKeepsCovered(c0, sched);
    forall i: nat | i < |c.slots| && c.phase[i].Armed? ensures !c.slots[i].inUse && c.slots[i].target != c.value {
      assert SlotOk(c, i) && Covered(c, i);
      assert !SomebodyComing(c, i, c.value);
    }
  }
}
