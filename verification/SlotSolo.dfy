/** What AddWaitingFiber and CheckWaitingFibers do to the slots when nothing interferes: plain
    functions of the slots, which the step machine reaches and the object form computes. */
module SlotSolo {
  import opened WaitSlots
  import opened SlotLifecycle

  /** Between calls a slot is free, or armed. */
  predicate Settled(slots: seq<Slot>, free: seq<bool>) {
    |slots| == |free| && forall i: nat | i < |slots| :: slots[i].inUse <==> free[i]
  }

  /** The slot wakes a scanner carrying v. */
  predicate Wakes(s: Slot, free: bool, v: nat) {
    !free && !s.inUse && s.target == v
  }

  /** The slots from i on after a scan with value v: those it wakes are consumed and freed. */
  function ScannedSlots(slots: seq<Slot>, free: seq<bool>, v: nat, i: nat): (r: seq<Slot>)
    requires |slots| == |free|
    ensures |r| == |slots|
  {
    seq(|slots|, j requires 0 <= j < |slots| =>
      if i <= j && Wakes(slots[j], free[j], v) then slots[j].(inUse := true) else slots[j])
  }

  function ScannedFree(slots: seq<Slot>, free: seq<bool>, v: nat, i: nat): (r: seq<bool>)
    requires |slots| == |free|
    ensures |r| == |free|
  {
    seq(|free|, j requires 0 <= j < |free| => free[j] || (i <= j && Wakes(slots[j], free[j], v)))
  }

  /** Fibers and flags put on the ready list by a scan from slot i on, in slot order. */
  function ScanWakes(slots: seq<Slot>, free: seq<bool>, v: nat, i: nat): (r: seq<(nat, nat)>)
    requires |slots| == |free|
    decreases |slots| - i
  {
    if i >= |slots| then []
    else (if Wakes(slots[i], free[i], v) then [(slots[i].fiber, slots[i].flag)] else [])
         + ScanWakes(slots, free, v, i + 1)
  }

  function WakeOf(s: Slot, free: bool, v: nat): seq<(nat, nat)> {
    if Wakes(s, free, v) then [(s.fiber, s.flag)] else []
  }

  lemma SlotWakes(slots: seq<Slot>, free: seq<bool>, v: nat, i: nat)
    requires |slots| == |free| && i < |slots|
    ensures ScanWakes(slots, free, v, i) == WakeOf(slots[i], free[i], v) + ScanWakes(slots, free, v, i + 1)
    ensures WaitersOf(slots, free, v, i + 1) == WaitersOf(slots, free, v, i) + multiset(WakeOf(slots[i], free[i], v))
  {
  }

  lemma MultisetOfSum(w: multiset<(nat, nat)>, a: seq<(nat, nat)>, b: seq<(nat, nat)>)
    ensures w + multiset(a + b) == w + multiset(a) + multiset(b)
  {
    assert multiset(a + b) == multiset(a) + multiset(b);
  }

  /** Exactly the registrations waiting for v are woken: each such slot once, and nobody else. */
  lemma {:induction false} ScanWakesExactly(slots: seq<Slot>, free: seq<bool>, v: nat, i: nat)
    requires |slots| == |free| && i <= |slots|
    ensures WaitersOf(slots, free, v, i) + multiset(ScanWakes(slots, free, v, i)) == WaitersOf(slots, free, v, |slots|)
    decreases |slots| - i
  {
    if i == |slots| {
      assert ScanWakes(slots, free, v, i) == [];
      hide ScanWakes, WaitersOf;
    } else {
      hide ScanWakes, WaitersOf, WakeOf;
      var w, rest := WakeOf(slots[i], free[i], v), ScanWakes(slots, free, v, i + 1);
      SlotWakes(slots, free, v, i);
      MultisetOfSum(WaitersOf(slots, free, v, i), w, rest);
      ScanWakesExactly(slots, free, v, i + 1);
    }
  }

  /** The registrations in slots below n that wait for v. */
  ghost function WaitersOf(slots: seq<Slot>, free: seq<bool>, v: nat, n: nat): multiset<(nat, nat)>
    requires |slots| == |free| && n <= |slots|
  {
    if n == 0 then multiset{}
    else WaitersOf(slots, free, v, n - 1)
         + (if Wakes(slots[n - 1], free[n - 1], v) then multiset{(slots[n - 1].fiber, slots[n - 1].flag)}
            else multiset{})
  }

  /** The first free slot from i on, or the number of slots. */
  function FirstFree(free: seq<bool>, i: nat): (r: nat)
    requires i <= |free|
    ensures i <= r <= |free|
    ensures r < |free| ==> free[r]
    ensures forall j | i <= j < r :: !free[j]
    decreases |free| - i
  {
    if i == |free| || free[i] then i else FirstFree(free, i + 1)
  }

  ghost function Pairs(woken: seq<Entry>): (r: seq<(nat, nat)>)
    ensures |r| == |woken|
  {
    seq(|woken|, j requires 0 <= j < |woken| => (woken[j].fiber, woken[j].flag))
  }

  /** n further steps of fiber f. */
  function Goes(c: Counter, f: nat, n: nat): (r: Counter)
    requires Shaped(c)
    ensures Shaped(r)
  {
    if n == 0 then c else Step(Goes(c, f, n - 1), f, Go)
  }

  /** Fiber f, running alone, gets the counter from c to r. */
  ghost predicate Reaches(c: Counter, f: nat, r: Counter)
    requires Shaped(c)
  {
    exists n: nat :: Goes(c, f, n) == r
  }

  lemma {:induction false} GoesAdd(c: Counter, f: nat, n: nat, m: nat)
    requires Shaped(c)
    ensures Goes(c, f, n + m) == Goes(Goes(c, f, n), f, m)
  {
    hide Step;
    if m > 0 { GoesAdd(c, f, n, m - 1); }
  }

  lemma ReachesOne(c: Counter, f: nat)
    requires Shaped(c)
    ensures Reaches(c, f, c) && Reaches(c, f, Step(c, f, Go))
  {
    assert Goes(c, f, 0) == c;
    assert Goes(c, f, 1) == Step(c, f, Go);
  }

  lemma ReachesOn(c: Counter, f: nat, d: Counter, r: Counter)
    requires Shaped(c) && Shaped(d)
    ensures Reaches(c, f, d) && Reaches(d, f, r) ==> Reaches(c, f, r)
  {
    if Reaches(c, f, d) && Reaches(d, f, r) {
      var n: nat :| Goes(c, f, n) == d;
      var m: nat :| Goes(d, f, m) == r;
      GoesAdd(c, f, n, m);
    }
  }

  lemma ReachesStep(c: Counter, f: nat, d: Counter)
    requires Shaped(c) && Shaped(d)
    ensures Reaches(c, f, d) ==> Reaches(c, f, Step(d, f, Go))
  {
    ReachesOne(d, f);
    ReachesOn(c, f, d, Step(d, f, Go));
  }

  lemma {:induction false} GoesKeepsInv(c: Counter, f: nat, n: nat)
    requires Inv(c)
    ensures Inv(Goes(c, f, n))
  {
    hide Step;
    if n > 0 {
      GoesKeepsInv(c, f, n - 1);
      StepKeepsInv(Goes(c, f, n - 1), f, Go);
    }
  }

  lemma ReachesKeepsInv(c: Counter, f: nat, r: Counter)
    requires Inv(c)
    ensures Reaches(c, f, r) ==> Inv(r)
  {
    if Reaches(c, f, r) {
      var n: nat :| Goes(c, f, n) == r;
      GoesKeepsInv(c, f, n);
    }
  }

  // ---------------------------------------------------------------------------------------------
  // CheckWaitingFibers

  /** r is c after fiber f has scanned slot i. */
  ghost predicate ScannedOne(c: Counter, r: Counter, f: nat, i: nat, v: nat)
    requires Shaped(c) && i < |c.slots|
  {
    && Shaped(r) && |r.fibers| == |c.fibers| && f < |r.fibers| && r.fibers[f] == Scan(i + 1, v) && r.value == c.value
    && (if Wakes(c.slots[i], c.free[i], v) then
          r.slots == c.slots[i := c.slots[i].(inUse := true)] && r.free == c.free[i := true]
          && Pairs(r.woken) == Pairs(c.woken) + [(c.slots[i].fiber, c.slots[i].flag)]
        else r.slots == c.slots && r.free == c.free && Pairs(r.woken) == Pairs(c.woken))
  }

  /** r is c after fiber f has scanned all slots from i on and returned. */
  ghost predicate ScannedRest(c: Counter, r: Counter, f: nat, i: nat, v: nat)
    requires Shaped(c)
  {
    && Shaped(r) && |r.fibers| == |c.fibers| && f < |r.fibers| && r.fibers[f] == Away && r.value == c.value
    && r.slots == ScannedSlots(c.slots, c.free, v, i) && r.free == ScannedFree(c.slots, c.free, v, i)
    && Pairs(r.woken) == Pairs(c.woken) + ScanWakes(c.slots, c.free, v, i)
  }

  lemma OneThenRest(c: Counter, d: Counter, r: Counter, f: nat, i: nat, v: nat)
    requires Shaped(c) && Shaped(d) && i < |c.slots|
    ensures ScannedOne(c, d, f, i, v) && ScannedRest(d, r, f, i + 1, v) ==> ScannedRest(c, r, f, i, v)
  {
    if ScannedOne(c, d, f, i, v) { ScanTail(c.slots, c.free, d.slots, d.free, v, i, Pairs(c.woken)); }
  }

  lemma ScanTail(slots: seq<Slot>, free: seq<bool>, slots': seq<Slot>, free': seq<bool>, v: nat, i: nat,
                 before: seq<(nat, nat)>)
    requires |slots| == |free| && i < |slots|
    requires if Wakes(slots[i], free[i], v)
             then slots' == slots[i := slots[i].(inUse := true)] && free' == free[i := true]
             else slots' == slots && free' == free
    ensures ScannedSlots(slots', free', v, i + 1) == ScannedSlots(slots, free, v, i)
    ensures ScannedFree(slots', free', v, i + 1) == ScannedFree(slots, free, v, i)
    ensures before + ScanWakes(slots, free, v, i)
              == (if Wakes(slots[i], free[i], v) then before + [(slots[i].fiber, slots[i].flag)] else before)
                 + ScanWakes(slots', free', v, i + 1)
  {
    LaterWakesSame(slots, free, slots', free', v, i + 1);
  }

  lemma {:induction false} LaterWakesSame(slots: seq<Slot>, free: seq<bool>, slots': seq<Slot>, free': seq<bool>,
                                          v: nat, i: nat)
    requires |slots| == |free| == |slots'| == |free'|
    requires forall j: nat | i <= j < |slots| :: slots[j] == slots'[j] && free[j] == free'[j]
    ensures ScanWakes(slots', free', v, i) == ScanWakes(slots, free, v, i)
    decreases |slots| - i
  {
    if i < |slots| { LaterWakesSame(slots, free, slots', free', v, i + 1); }
  }

  lemma ReachTake(c: Counter, f: nat, i: nat, v: nat)
    requires Inv(c) && f < |c.fibers| && c.fibers[f] == Scan(i, v) && i < |c.slots| && Wakes(c.slots[i], c.free[i], v)
    ensures Reaches(c, f, Set(c, f, ScanTake(i, v)))
  {
    assert Shaped(c);
    hide Inv, Reaches;
    ReachesOne(c, f);
    var c1 := Step(c, f, Go);
    assert c1 == Set(c, f, ScanUse(i, v));
    ReachesStep(c, f, c1);
    var c2 := Step(c1, f, Go);
    assert c2 == Set(c, f, ScanTarget(i, v));
    ReachesStep(c, f, c2);
    assert Step(c2, f, Go) == Set(c, f, ScanTake(i, v));
  }

  lemma ReachPush(c: Counter, f: nat, i: nat, v: nat) returns (d: Counter)
    requires Inv(c) && f < |c.fibers| && c.fibers[f] == Scan(i, v) && i < |c.slots| && Wakes(c.slots[i], c.free[i], v)
    ensures Reaches(c, f, d) && Shaped(d)
    ensures |d.fibers| == |c.fibers| && d.fibers[f].ScanPush? && d.fibers[f].i == i && d.fibers[f].value == v
    ensures d.value == c.value && d.woken == c.woken && d.free == c.free
    ensures d.slots == c.slots[i := c.slots[i].(inUse := true)]
  {
    assert Shaped(c);
    ReachTake(c, f, i, v);
    hide Inv, Reaches;
    var c3 := Set(c, f, ScanTake(i, v));
    ReachesStep(c, f, c3);
    d := Step(c3, f, Go);
  }

  lemma ConsumeMove(c: Counter, f: nat, i: nat, v: nat)
    requires Inv(c) && f < |c.fibers|
    ensures c.fibers[f].ScanPush? && c.fibers[f].i == i && c.fibers[f].value == v ==>
              var d := Step(c, f, Go);
              && i < |c.slots| && d.fibers == c.fibers[f := ScanFree(i, v, c.fibers[f].arm)]
              && d.value == c.value && d.slots == c.slots && d.free == c.free
              && d.woken == c.woken + [Entry(c.slots[i].fiber, c.slots[i].flag, c.fibers[f].arm, f)]
  {
    assert FiberOk(c, f);
    hide Inv;
  }

  lemma FreeMove(c: Counter, f: nat, i: nat, v: nat)
    requires Shaped(c) && f < |c.fibers| && i < |c.slots|
    requires c.fibers[f].ScanFree? && c.fibers[f].i == i && c.fibers[f].value == v
    ensures var d := Step(c, f, Go);
            && d.fibers == c.fibers[f := Scan(i + 1, v)] && d.value == c.value && d.slots == c.slots
            && d.free == c.free[i := true] && d.woken == c.woken
  {
  }

  lemma ConsumeSlot(c: Counter, f: nat, i: nat, v: nat) returns (r: Counter)
    requires Inv(c) && f < |c.fibers| && c.fibers[f].ScanPush? && c.fibers[f].i == i && c.fibers[f].value == v
    ensures Reaches(c, f, r) && Shaped(r)
    ensures |r.fibers| == |c.fibers| && r.fibers[f] == Scan(i + 1, v) && r.value == c.value
    ensures i < |c.slots| && r.slots == c.slots && r.free == c.free[i := true]
    ensures Pairs(r.woken) == Pairs(c.woken) + [(c.slots[i].fiber, c.slots[i].flag)]
  {
    hide Reaches, Step;
    ConsumeMove(c, f, i, v);
    ReachesOne(c, f);
    var c1 := Step(c, f, Go);
    FreeMove(c1, f, i, v);
    ReachesStep(c, f, c1);
    r := Step(c1, f, Go);
    assert Pairs(c1.woken) == Pairs(c.woken) + [(c.slots[i].fiber, c.slots[i].flag)];
    hide Inv;
  }

  lemma ScanMove(c: Counter, f: nat, i: nat, v: nat)
    requires Shaped(c) && f < |c.fibers| && i < |c.slots|
    ensures c.fibers[f] == Scan(i, v) ==>
              Step(c, f, Go) == Set(c, f, if c.free[i] then Scan(i + 1, v) else ScanUse(i, v))
    ensures c.fibers[f] == ScanUse(i, v) ==>
              Step(c, f, Go) == Set(c, f, if c.slots[i].inUse then Scan(i + 1, v) else ScanTarget(i, v))
    ensures c.fibers[f] == ScanTarget(i, v) && c.slots[i].target != v ==> Step(c, f, Go) == Set(c, f, Scan(i + 1, v))
  {
  }

  lemma SetTwice(c: Counter, f: nat, l: Local, m: Local)
    requires Shaped(c) && f < |c.fibers|
    ensures Shaped(Set(c, f, l)) && Set(Set(c, f, l), f, m) == Set(c, f, m)
  {
    assert c.fibers[f := l][f := m] == c.fibers[f := m];
  }

  lemma SkippedOne(c: Counter, f: nat, i: nat, v: nat)
    requires Inv(c) && f < |c.fibers| && i < |c.slots| && !Wakes(c.slots[i], c.free[i], v)
    ensures ScannedOne(c, Set(c, f, Scan(i + 1, v)), f, i, v)
  {
    assert SlotOk(c, i);
    hide Inv;
  }

  lemma ScanSkips(c: Counter, f: nat, i: nat, v: nat) returns (r: Counter)
    requires Inv(c) && f < |c.fibers| && c.fibers[f] == Scan(i, v) && i < |c.slots| && !Wakes(c.slots[i], c.free[i], v)
    ensures Reaches(c, f, r) && ScannedOne(c, r, f, i, v)
  {
    assert Shaped(c);
    SkippedOne(c, f, i, v);
    hide Inv, Reaches, Step, ScannedOne;
    r := Set(c, f, Scan(i + 1, v));
    var c1, c2 := Set(c, f, ScanUse(i, v)), Set(c, f, ScanTarget(i, v));
    SetTwice(c, f, ScanUse(i, v), Scan(i + 1, v));
    SetTwice(c, f, ScanUse(i, v), ScanTarget(i, v));
    SetTwice(c, f, ScanTarget(i, v), Scan(i + 1, v));
    ScanMove(c, f, i, v);
    ReachesOne(c, f);
    if !c.free[i] {
      ScanMove(c1, f, i, v);
      ReachesStep(c, f, c1);
      if !c.slots[i].inUse {
        ScanMove(c2, f, i, v);
        ReachesStep(c, f, c2);
      }
    }
  }

  /** A scanner running alone gets from slot i to slot i + 1, treating slot i as specified. */
  lemma ScanOneSlot(c: Counter, f: nat, i: nat, v: nat) returns (r: Counter)
    requires Inv(c) && f < |c.fibers| && c.fibers[f] == Scan(i, v) && i < |c.slots|
    ensures Reaches(c, f, r) && ScannedOne(c, r, f, i, v)
  {
    if Wakes(c.slots[i], c.free[i], v) {
      hide Inv, Reaches, Step;
      var d := ReachPush(c, f, i, v);
      ReachesKeepsInv(c, f, d);
      r := ConsumeSlot(d, f, i, v);
      ReachesOn(c, f, d, r);
    } else {
      r := ScanSkips(c, f, i, v);
    }
  }

  lemma ScanEnds(c: Counter, f: nat, v: nat)
    requires Inv(c) && f < |c.fibers| && c.fibers[f] == Scan(|c.slots|, v)
    ensures ScannedRest(c, Step(c, f, Go), f, |c.slots|, v)
  {
    assert Shaped(c);
    hide Inv;
    assert Step(c, f, Go).slots == ScannedSlots(c.slots, c.free, v, |c.slots|);
    assert Step(c, f, Go).free == ScannedFree(c.slots, c.free, v, |c.slots|);
  }

  /** An uninterrupted CheckWaitingFibers is the plain scan. */
  lemma {:induction false} ScanAlone(c: Counter, f: nat, i: nat, v: nat) returns (r: Counter)
    requires Inv(c) && f < |c.fibers| && c.fibers[f] == Scan(i, v) && i <= |c.slots|
    ensures Reaches(c, f, r) && ScannedRest(c, r, f, i, v)
    decreases |c.slots| - i
  {
    assert Shaped(c);
    if i == |c.slots| {
      hide Inv, Step, Reaches;
      ScanEnds(c, f, v);
      ReachesOne(c, f);
      r := Step(c, f, Go);
    } else {
      hide Inv, Step, Reaches, ScannedSlots, ScannedFree, ScanWakes, Pairs;
      var d := ScanOneSlot(c, f, i, v);
      ReachesKeepsInv(c, f, d);
      r := ScanAlone(d, f, i + 1, v);
      OneThenRest(c, d, r, f, i, v);
      ReachesOn(c, f, d, r);
    }
  }

  // ---------------------------------------------------------------------------------------------
  // AddWaitingFiber

  /** What an uninterrupted AddWaitingFiber leaves in the slots. */
  function RegisteredSlots(slots: seq<Slot>, free: seq<bool>, value: nat, req: Request): (r: seq<Slot>)
    requires |slots| == |free|
    ensures |r| == |slots|
  {
    var i := FirstFree(free, 0);
    if i == |free| then slots
    else slots[i := Slot(req.fiber, req.flag, req.target, req.target == value)]
  }

  function RegisteredFree(free: seq<bool>, value: nat, req: Request): (r: seq<bool>)
    ensures |r| == |free|
  {
    var i := FirstFree(free, 0);
    if i == |free| || req.target == value then free else free[i := false]
  }

  /** Only the fibers' places differ. */
  ghost predicate SameSlots(c: Counter, r: Counter) {
    Shaped(r) && r.slots == c.slots && r.free == c.free && r.value == c.value && |r.fibers| == |c.fibers|
  }

  lemma {:induction false} AcquireAlone(c: Counter, f: nat, i: nat, req: Request) returns (r: Counter)
    requires Inv(c) && f < |c.fibers| && c.fibers[f] == Acquire(i, req) && i <= |c.slots|
    requires FirstFree(c.free, i) < |c.slots|
    ensures Reaches(c, f, r) && SameSlots(c, r) && r.fibers[f] == Acquire(FirstFree(c.free, i), req)
    decreases |c.slots| - i
  {
    assert Shaped(c);
    hide Inv, Reaches;
    ReachesOne(c, f);
    if c.free[i] {
      r := c;
    } else {
      var d := Step(c, f, Go);
      StepKeepsInv(c, f, Go);
      assert SameSlots(c, d) && d.fibers[f] == Acquire(i + 1, req);
      hide Step;
      r := AcquireAlone(d, f, i + 1, req);
      ReachesOn(c, f, d, r);
    }
  }

  lemma ArmAlone(c: Counter, f: nat, i: nat, req: Request) returns (r: Counter)
    requires Shaped(c) && f < |c.fibers| && c.fibers[f] == Acquire(i, req) && i < |c.slots| && c.free[i]
    ensures Reaches(c, f, r) && Shaped(r) && |r.fibers| == |c.fibers| && r.fibers[f].Recheck? && r.fibers[f].i == i
    ensures r.value == c.value && r.slots == c.slots[i := Slot(req.fiber, req.flag, req.target, false)]
    ensures r.free == c.free[i := false]
  {
    hide Reaches;
    ReachesOne(c, f);
    var c1 := Step(c, f, Go);
    ReachesStep(c, f, c1);
    var c2 := Step(c1, f, Go);
    ReachesStep(c, f, c2);
    r := Step(c2, f, Go);
    assert c2.slots == c.slots[i := Slot(req.fiber, req.flag, req.target, c.slots[i].inUse)];
  }

  /** r is c after f, having armed slot i, has been answered. */
  ghost predicate AnsweredAt(c: Counter, r: Counter, f: nat, i: nat)
    requires Shaped(c) && i < |c.slots|
  {
    && Shaped(r) && |r.fibers| == |c.fibers| && f < |r.fibers| && r.value == c.value
    && r.fibers[f].Answer? && r.fibers[f].done == (c.slots[i].target == c.value)
    && r.slots == c.slots[i := c.slots[i].(inUse := c.slots[i].target == c.value)]
    && r.free == c.free[i := c.slots[i].target == c.value]
  }

  lemma AnswerAlone(c: Counter, f: nat, i: nat) returns (r: Counter)
    requires Shaped(c) && f < |c.fibers| && c.fibers[f].Recheck? && c.fibers[f].i == i && i < |c.slots|
    requires !c.slots[i].inUse && !c.free[i]
    ensures Reaches(c, f, r) && AnsweredAt(c, r, f, i)
  {
    hide Reaches;
    var m := c.fibers[f].arm;
    ReachesOne(c, f);
    var c1 := Step(c, f, Go);
    assert c1 == Set(c, f, TestUse(i, m, c.value));
    ReachesStep(c, f, c1);
    var c2 := Step(c1, f, Go);
    assert c2 == Set(c, f, TestTarget(i, m, c.value));
    ReachesStep(c, f, c2);
    r := Step(c2, f, Go);
    if c.slots[i].target == c.value {
      assert r == Set(c, f, Cancel(i, m, c.value));
      ReachesStep(c, f, r);
      r := Step(r, f, Go);
      ReachesStep(c, f, r);
      r := Step(r, f, Go);
    }
  }

  /** An uninterrupted AddWaitingFiber with a free slot: it answers whether the counter already has the
      target, and leaves the registration armed exactly when it has not. */
  lemma RegisterAlone(c: Counter, f: nat, req: Request) returns (r: Counter)
    requires Inv(c) && f < |c.fibers| && c.fibers[f] == Acquire(0, req) && FirstFree(c.free, 0) < |c.slots|
    ensures Reaches(c, f, r) && Shaped(r) && |r.fibers| == |c.fibers| && r.value == c.value
    ensures r.fibers[f].Answer? && r.fibers[f].done == (req.target == c.value)
    ensures r.slots == RegisteredSlots(c.slots, c.free, c.value, req)
    ensures r.free == RegisteredFree(c.free, c.value, req)
  {
    assert Shaped(c);
    hide Inv, Reaches, Step;
    var i := FirstFree(c.free, 0);
    var d := AcquireAlone(c, f, 0, req);
    var e := ArmAlone(d, f, i, req);
    ReachesOn(c, f, d, e);
    r := AnswerAlone(e, f, i);
    ReachesOn(c, f, e, r);
  }

  /** With all slots taken it throws, and leaves them as they are. */
  lemma {:induction false} RegisterFull(c: Counter, f: nat, i: nat, req: Request) returns (r: Counter)
    requires Inv(c) && f < |c.fibers| && c.fibers[f] == Acquire(i, req) && i <= |c.slots|
    requires FirstFree(c.free, i) == |c.slots|
    ensures Reaches(c, f, r) && SameSlots(c, r) && r.fibers[f] == SlotsFull
    decreases |c.slots| - i
  {
    assert Shaped(c);
    hide Inv, Reaches;
    ReachesOne(c, f);
    var d := Step(c, f, Go);
    if i == |c.slots| {
      r := d;
    } else {
      StepKeepsInv(c, f, Go);
      assert SameSlots(c, d) && d.fibers[f] == Acquire(i + 1, req);
      hide Step;
      r := RegisterFull(d, f, i + 1, req);
      ReachesOn(c, f, d, r);
    }
  }
}
