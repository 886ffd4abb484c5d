/** What a wait means when slots are armed cleanly: nobody with a stale value threatens the slot, unless
    the counter has the target just then.  Then every answer and every wake-up is justified, however the
    slots are reused. */
module SlotBarrier {
  import opened WaitSlots
  import opened SlotLifecycle
  import opened SlotTheorems
  import opened SlotWaiters

  /** The step does not arm a slot that a stale scan or an earlier waiter could still win for its target. */
  ghost predicate CleanArming(c: Counter, f: nat, a: Action) {
    f < |c.fibers| && a == Go && c.fibers[f].Arming? && c.value != c.fibers[f].req.target ==>
      forall g: nat | g < |c.fibers| && g != f :: !Threat(c.fibers[g], c.fibers[f].i, c.fibers[f].req.target)
  }

  /** The counter has had the target of arming m since it was made, or its slot is armed and unthreatened. */
  ghost predicate Justified(c: Counter, m: nat)
    requires Shaped(c) && m < |c.arms|
  {
    m in c.hits
    || (c.arms[m].at < |c.slots| && c.phase[c.arms[m].at] == Armed(m)
        && !Threatened(c, c.arms[m].at, c.arms[m].req.target))
  }

  /** A fiber that has seen the target in its slot, or is to return true, is justified. */
  ghost predicate SeenOk(c: Counter, f: nat)
    requires f < |c.fibers|
  {
    match c.fibers[f]
    case Cancel(_, m, _) => m in c.hits
    case Unslot(_, _, m) => m in c.hits
    case Answer(m, done) => done ==> m in c.hits
    case _ => true
  }

  ghost predicate Sound(c: Counter) {
    && Inv(c)
    && (forall m: nat | m < |c.arms| :: Justified(c, m))
    && (forall f: nat | f < |c.fibers| :: SeenOk(c, f))
  }

  lemma StepKeepsJustified(c: Counter, f: nat, a: Action, m: nat)
    requires Sound(c) && CleanArming(c, f, a) && m < |Step(c, f, a).arms|
    ensures Justified(Step(c, f, a), m)
  {
    var r := Step(c, f, a);
    ArmsOnlyGrow(c, f, a);
    HitsStay(c, f, a);
    if m < |c.arms| {
      assert Justified(c, m);
      if m !in r.hits { UnthreatenedStep(c, f, a, c.arms[m].at, m); }
    } else if m !in r.hits {
      NewArming(c, f, a);
      var i := r.arms[m].at;
      forall g: nat | g < |r.fibers|
        ensures !Threat(r.fibers[g], i, r.arms[m].req.target)
      {
        OthersUnmoved(c, f, a, g);
      }
    }
  }

  lemma NewArming(c: Counter, f: nat, a: Action)
    requires Inv(c) && |Step(c, f, a).arms| > |c.arms|
    ensures f < |c.fibers| && a == Go && c.fibers[f].Arming?
    ensures var r, m, i := Step(c, f, a), |c.arms|, c.fibers[f].i;
            && |r.arms| == m + 1 && r.arms[m] == Arm(f, c.fibers[f].req, i) && i < |r.slots| && r.phase[i] == Armed(m)
            && f < |r.fibers| && r.fibers[f] == Recheck(i, m) && (c.value == c.fibers[f].req.target ==> m in r.hits)
  {
    if f < |c.fibers| { assert FiberOk(c, f); }
  }

  lemma StepKeepsSeen(c: Counter, f: nat, a: Action, g: nat)
    requires Sound(c) && g < |c.fibers|
    ensures g < |Step(c, f, a).fibers| && SeenOk(Step(c, f, a), g)
  {
    HitsStay(c, f, a);
    OthersUnmoved(c, f, a, g);
    assert SeenOk(c, g);
    if g == f {
      assert FiberOk(c, f);
      var l := c.fibers[f];
      if l.TestTarget? {
        assert Justified(c, l.arm);
        if l.arm !in c.hits { assert SlotOk(c, l.i); }
      }
      hide Inv, Sound;
    }
  }

  /** Clean armings keep every answer and wake-up justified, whatever else happens. */
  lemma StepKeepsSound(c: Counter, f: nat, a: Action)
    requires Sound(c) && CleanArming(c, f, a)
    ensures Sound(Step(c, f, a))
  {
    var r := Step(c, f, a);
    StepKeepsInv(c, f, a);
    ArmsOnlyGrow(c, f, a);
    forall m: nat | m < |r.arms| ensures Justified(r, m) { StepKeepsJustified(c, f, a, m); }
    forall g: nat | g < |r.fibers| ensures SeenOk(r, g) { StepKeepsSeen(c, f, a, g); }
  }

  lemma InitSound(slots: nat, fibers: nat)
    ensures Sound(Init(slots, fibers))
  {
    InitInv(slots, fibers);
  }

  /** A consumed arming, and one whose maker is told that it is done, has had its target reached. */
  lemma ResolvedWasReached(c: Counter, m: nat)
    requires Sound(c) && m < |c.arms| && c.outcome[m] != Open
    ensures m in c.hits
  {
    assert Justified(c, m) && ArmOk(c, m);
    assert SlotOk(c, c.arms[m].at);
  }

  lemma {:induction false} RunKeepsHits(c: Counter, sched: Schedule)
    requires Shaped(c)
    ensures c.hits <= Run(c, sched).hits
    decreases |sched|
  {
    hide Step;
    if sched != [] {
      RunKeepsHits(c, sched[..|sched| - 1]);
      HitsStay(Run(c, sched[..|sched| - 1]), sched[|sched| - 1].0, sched[|sched| - 1].1);
    }
  }

  /** The hypothesis is exact: an arming can be consumed although its target is never reached after it if
      and only if it was not clean. */
  lemma CleanArmingIsExact(c: Counter, f: nat)
    requires Inv(c) && f < |c.fibers| && c.fibers[f].Arming?
    ensures var r, m := Step(c, f, Go), |c.arms|;
            m < |r.arms| && r.arms[m].maker == f && (CanResolveUnjustified(r, m) <==> !CleanArming(c, f, Go))
  {
    var r, m := Step(c, f, Go), |c.arms|;
    StepKeepsInv(c, f, Go);
    assert FiberOk(c, f);
    NewArming(c, f, Go);
    ArmsOnlyGrow(c, f, Go);
    var i := c.fibers[f].i;
    forall g: nat | g < |c.fibers| && g != f ensures r.fibers[g] == c.fibers[g] { OthersUnmoved(c, f, Go, g); }
    if m in r.hits {
      ArmingHits(c, f);
      forall sched: Schedule ensures !ResolvesUnjustified(r, sched, m) { RunKeepsHits(r, sched); }
    } else {
      WakeJustifiedIffUnthreatened(r, i, m);
      hide Inv, Step, CanResolveUnjustified;
      assert !Threat(r.fibers[f], i, r.arms[m].req.target);
      if !CleanArming(c, f, Go) {
        var g: nat :| g < |c.fibers| && g != f && Threat(c.fibers[g], i, c.fibers[f].req.target);
        assert Threat(r.fibers[g], i, r.arms[m].req.target);
      }
    }
  }

  lemma ArmingHits(c: Counter, f: nat)
    requires Inv(c) && f < |c.fibers| && c.fibers[f].Arming? && |c.arms| in Step(c, f, Go).hits
    ensures c.value == c.fibers[f].req.target
  {
  }
}
