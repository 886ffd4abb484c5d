/** What the fiber hand-off guarantees in every state reachable without a wrong cached record and without
    a stolen registration (FiberInvariant.StepKeepsInvIff: exactly these steps keep its invariant). */
module FiberTheorems {
  import opened ThreadLocals
  import opened FiberMachine
  import opened FiberInvariant
  import Registry

  ghost predicate ReachedBy(s: State, fibers: nat, io: seq<bool>, sched: Schedule) {
    StepsOk(Init(fibers, io), sched) && s == Run(Init(fibers, io), sched)
  }

  ghost predicate Reachable(s: State) {
    exists fibers: nat, io: seq<bool>, sched: Schedule :: ReachedBy(s, fibers, io, sched)
  }

  lemma ReachableInv(s: State)
    requires Reachable(s)
    ensures Inv(s)
  {
    var fibers: nat, io: seq<bool>, sched: Schedule :| ReachedBy(s, fibers, io, sched);
    InitInv(fibers, io);
    hide Inv, Init;
    RunKeepsInv(Init(fibers, io), sched);
  }

  /** Where fiber f is, told from the scheduler's own data. */
  ghost predicate At(s: State, f: nat, p: Place)
    requires Shaped(s) && f < |s.idle|
  {
    match p
    case InPool => s.idle[f]
    case ClaimedBy(u) => Acquired(s, u, f)
    case RunsOn(u) => u < |s.exec| && s.exec[u] == Running(f)
    case TransitOn(u) =>
      u < |s.exec| && s.tls[u].destination != Nowhere && s.tls[u].previous == f && s.exec[u] != Running(f)
      && !Spent(s, u)
    case Parked =>
      s.stage[f].WaitResume? && s.stage[f].flag < |s.flags| && s.flags[s.stage[f].flag] == FlagState(f, true, true)
    case Gone => s.stage[f] == Exited
  }

  lemma AtIsPlace(s: State, f: nat, p: Place)
    requires Inv(s) && f < |s.idle|
    ensures At(s, f, p) <==> p == s.place[f]
  {
    assert FiberOk(s, f) && FlagOk(s, f);
    match p {
      case ClaimedBy(u) => if u < |s.exec| { assert ThreadOk(s, u); }
      case RunsOn(u) => if u < |s.exec| { assert ThreadOk(s, u); }
      case TransitOn(u) => if u < |s.exec| { assert ThreadOk(s, u); }
      case Gone => if s.place[f].RunsOn? { assert ThreadOk(s, s.place[f].thread); }
      case _ =>
    }
  }

  /** Every fiber is in exactly one place: in the pool, acquired by one thread, executing on one thread,
      just left by one thread, parked, or gone. */
  lemma FiberPartition(s: State, f: nat)
    requires Reachable(s) && Shaped(s) && f < |s.idle|
    ensures exists p :: At(s, f, p) && forall q :: At(s, f, q) ==> q == p
  {
    ReachableInv(s);
    assert At(s, f, s.place[f]) by { AtIsPlace(s, f, s.place[f]); }
    forall q | At(s, f, q) ensures q == s.place[f] { AtIsPlace(s, f, q); }
  }

  // ---- How many fibers are where

  ghost function Pooled(s: State): set<nat>
    requires Shaped(s)
  {
    set f: nat | f < |s.idle| && At(s, f, InPool)
  }

  ghost predicate SomeClaims(s: State, f: nat)
    requires Shaped(s) && f < |s.idle|
  {
    exists u: nat :: At(s, f, ClaimedBy(u))
  }

  ghost predicate SomeRuns(s: State, f: nat)
    requires Shaped(s) && f < |s.idle|
  {
    exists u: nat :: At(s, f, RunsOn(u))
  }

  ghost predicate SomeLeaves(s: State, f: nat)
    requires Shaped(s) && f < |s.idle|
  {
    exists u: nat :: At(s, f, TransitOn(u))
  }

  ghost function Claimed(s: State): set<nat>
    requires Shaped(s)
  {
    set f: nat | f < |s.idle| && SomeClaims(s, f)
  }

  ghost function Executing(s: State): set<nat>
    requires Shaped(s)
  {
    set f: nat | f < |s.idle| && SomeRuns(s, f)
  }

  ghost function InTransit(s: State): set<nat>
    requires Shaped(s)
  {
    set f: nat | f < |s.idle| && SomeLeaves(s, f)
  }

  ghost function Asleep(s: State): set<nat>
    requires Shaped(s)
  {
    set f: nat | f < |s.idle| && At(s, f, Parked)
  }

  ghost function Left(s: State): set<nat>
    requires Shaped(s)
  {
    set f: nat | f < |s.idle| && At(s, f, Gone)
  }

  ghost predicate PlaceSets(s: State)
    requires Shaped(s)
  {
    && (forall f :: f in Pooled(s) <==> 0 <= f < |s.idle| && s.place[f] == InPool)
    && (forall f :: f in Claimed(s) <==> 0 <= f < |s.idle| && s.place[f].ClaimedBy?)
    && (forall f :: f in Executing(s) <==> 0 <= f < |s.idle| && s.place[f].RunsOn?)
    && (forall f :: f in InTransit(s) <==> 0 <= f < |s.idle| && s.place[f].TransitOn?)
    && (forall f :: f in Asleep(s) <==> 0 <= f < |s.idle| && s.place[f] == Parked)
    && (forall f :: f in Left(s) <==> 0 <= f < |s.idle| && s.place[f] == Gone)
  }

  lemma SetsFollowPlaces(s: State)
    requires Inv(s)
    ensures PlaceSets(s)
  {
    assert Shaped(s);
    forall f: nat, p: Place | f < |s.idle| ensures At(s, f, p) <==> p == s.place[f] { AtIsPlace(s, f, p); }
    hide Inv, At;
    forall f: nat | f < |s.idle|
      ensures SomeClaims(s, f) <==> s.place[f].ClaimedBy?
      ensures SomeRuns(s, f) <==> s.place[f].RunsOn?
      ensures SomeLeaves(s, f) <==> s.place[f].TransitOn?
    {
      assert At(s, f, s.place[f]);
    }
  }

  /** The fibers 0 .. n - 1. */
  ghost function Below(n: nat): (r: set<nat>)
    ensures |r| == n && forall f :: f in r <==> 0 <= f < n
  {
    if n == 0 then {} else Below(n - 1) + {n - 1}
  }

  lemma Peel(u: set<nat>, a: set<nat>)
    requires a <= u
    ensures |u - a| == |u| - |a|
  {
  }

  /** Disjoint sets that together make up the fibers 0 .. n - 1. */
  lemma SixParts(n: nat, a: set<nat>, b: set<nat>, c: set<nat>, d: set<nat>, e: set<nat>, g: set<nat>)
    requires a !! b !! c !! d !! e !! g
    requires forall f :: 0 <= f < n <==> f in a || f in b || f in c || f in d || f in e || f in g
    ensures |a| + |b| + |c| + |d| + |e| + |g| == n
  {
    var u := Below(n);
    Peel(u, a);
    Peel(u - a, b);
    Peel(u - a - b, c);
    Peel(u - a - b - c, d);
    Peel(u - a - b - c - d, e);
    Peel(u - a - b - c - d - e, g);
    assert u - a - b - c - d - e - g == {};
  }

  lemma CountByPlace(place: seq<Place>, a: set<nat>, b: set<nat>, c: set<nat>, d: set<nat>, e: set<nat>, g: set<nat>)
    requires forall f :: f in a <==> 0 <= f < |place| && place[f] == InPool
    requires forall f :: f in b <==> 0 <= f < |place| && place[f].ClaimedBy?
    requires forall f :: f in c <==> 0 <= f < |place| && place[f].RunsOn?
    requires forall f :: f in d <==> 0 <= f < |place| && place[f].TransitOn?
    requires forall f :: f in e <==> 0 <= f < |place| && place[f] == Parked
    requires forall f :: f in g <==> 0 <= f < |place| && place[f] == Gone
    ensures |a| + |b| + |c| + |d| + |e| + |g| == |place|
  {
    SixParts(|place|, a, b, c, d, e, g);
  }

  /** The class sizes add up to the number of fibers. */
  lemma CensusConserved(s: State)
    requires Reachable(s) && Shaped(s)
    ensures |Pooled(s)| + |Claimed(s)| + |Executing(s)| + |InTransit(s)| + |Asleep(s)| + |Left(s)| == |s.idle|
  {
    ReachableInv(s);
    SetsFollowPlaces(s);
    hide Inv, At, Reachable, Pooled, Claimed, Executing, InTransit, Asleep, Left;
    CountByPlace(s.place, Pooled(s), Claimed(s), Executing(s), InTransit(s), Asleep(s), Left(s));
  }

  /** A set of fibers that each belong to a thread, no two to the same one, has at most one per thread. */
  lemma {:induction false} OnePerThread(fs: set<nat>, owner: map<nat, nat>, n: nat)
    requires forall f | f in fs :: f in owner && owner[f] < n
    requires forall f, g | f in fs && g in fs && owner[f] == owner[g] :: f == g
    ensures |fs| <= n
  {
    if n > 0 {
      var last := set f | f in fs && owner[f] == n - 1;
      OnePerThread(fs - last, owner, n - 1);
      if f :| f in last { assert last == {f}; }
      assert |fs| == |fs - last| + |last|;
    } else if f :| f in fs {
      assert false;
    }
  }

  /** While two fibers for every thread, and those parked or gone, are fewer than all, one is idle: the
      search of FindFreeFiber cannot fail for want of fibers. */
  lemma IdleFiberExists(s: State) returns (i: nat)
    requires Reachable(s) && Shaped(s) && 2 * |s.exec| + |Asleep(s)| + |Left(s)| < |s.idle|
    ensures i < |s.idle| && s.idle[i]
  {
    ReachableInv(s);
    SetsFollowPlaces(s);
    CensusConserved(s);
    hide Inv, At, Reachable, Claimed, Executing, InTransit, Asleep, Left;
    ExecutingAtMost(s);
    MovingAtMost(s);
    i :| i in Pooled(s);
  }

  lemma ExecutingAtMost(s: State)
    requires Inv(s) && PlaceSets(s)
    ensures |Executing(s)| <= |s.exec|
  {
    var runners := map f | f in Executing(s) :: s.place[f].thread;
    forall f | f in Executing(s)
      ensures runners[f] < |s.exec| && s.exec[runners[f]] == Running(f)
    {
      assert FiberOk(s, f);
    }
    hide Inv, PlaceSets, Executing;
    OnePerThread(Executing(s), runners, |s.exec|);
  }

  lemma OneMoverPerThread(s: State, f: nat, g: nat)
    requires Inv(s) && f < |s.idle| && g < |s.idle|
    requires s.place[f].ClaimedBy? || s.place[f].TransitOn?
    requires s.place[g].ClaimedBy? || s.place[g].TransitOn?
    requires s.place[f].thread == s.place[g].thread
    ensures f == g
  {
    assert FiberOk(s, f) && FiberOk(s, g) && ThreadOk(s, s.place[f].thread);
  }

  /** A thread holds one acquired fiber, or has one to clean up after, never both. */
  lemma MovingAtMost(s: State)
    requires Inv(s) && PlaceSets(s)
    ensures |Claimed(s)| + |InTransit(s)| <= |s.exec|
  {
    var c, t := Claimed(s), InTransit(s);
    assert c !! t && forall f | f in c + t :: 0 <= f < |s.idle| && (s.place[f].ClaimedBy? || s.place[f].TransitOn?);
    hide PlaceSets, Claimed, InTransit;
    var movers := map f | f in c + t :: s.place[f].thread;
    forall f | f in c + t ensures movers[f] < |s.exec| { assert FiberOk(s, f); }
    hide Inv;
    forall f, g | f in c + t && g in c + t && movers[f] == movers[g] ensures f == g { OneMoverPerThread(s, f, g); }
    OnePerThread(c + t, movers, |s.exec|);
    assert |c + t| == |c| + |t|;
  }

  // ---- What a step leaves alone

  /** Thread u, executing fiber f, touches no other thread's Exec, no other fiber's stage and nobody's isIO. */
  ghost predicate OnlyItsOwn(s: State, r: State, u: nat, f: nat)
    requires Shaped(s) && Shaped(r)
  {
    && |r.exec| == |s.exec| && |r.stage| == |s.stage|
    && (forall w: nat | w < |s.exec| :: r.tls[w].isIO == s.tls[w].isIO)
    && (forall w: nat | w < |s.exec| && w != u :: r.exec[w] == s.exec[w])
    && (forall h: nat | h < |s.stage| && h != f :: r.stage[h] == s.stage[h])
  }

  lemma HandOverTouches(s: State, to: FiberDestination, i: nat, p: FlagPointer, u: nat, f: nat)
    requires Shaped(s)
    ensures OnlyItsOwn(s, HandOver(s, to, i, p), u, f)
  {
  }

  lemma SwitchTouches(s: State, u: nat, f: nat, g: nat)
    requires Shaped(s) && u < |s.exec|
    ensures OnlyItsOwn(s, SwitchTo(s, u, g), u, f)
  {
  }

  lemma CheckReadyTouches(s: State, u: nat, f: nat, k: nat)
    requires Shaped(s) && u < |s.exec| && f < |s.stage|
    ensures OnlyItsOwn(s, CheckReady(s, u, f, k), u, f)
  {
  }

  lemma NextTouches(s: State, u: nat, f: nat)
    requires Shaped(s) && u < |s.exec| && f < |s.stage|
    ensures OnlyItsOwn(s, NextOf(s, u, f), u, f)
  {
    match s.stage[f] {
      case CleanStore(_, to, i, p, _) => HandOverTouches(s, to, i, p, u, f);
      case Scanning(k) => CheckReadyTouches(s, u, f, k);
      case PoolSwitch(g) => SwitchTouches(s, u, f, g);
      case WaitSwitch(_, _, g) => SwitchTouches(s, u, f, g);
      case _ =>
    }
    hide HandOver, SwitchTo, CheckReady;
  }

  lemma RegistryTouches(s: State, u: nat, f: nat, a: Action)
    requires Shaped(s) && u < |s.exec| && f < |s.stage|
    requires a.Wait? || a.Register? || a.Cancel? || a.Steal? || a.Wake?
    ensures OnlyItsOwn(s, FiberStep(s, u, f, a), u, f)
  {
    hide NextOf, Registry.Apply, Registry.Allowed;
  }

  lemma FiberStepTouches(s: State, u: nat, f: nat, a: Action)
    requires Shaped(s) && u < |s.exec| && f < |s.stage|
    ensures OnlyItsOwn(s, FiberStep(s, u, f, a), u, f)
  {
    match a {
      case Next => NextTouches(s, u, f);
      case Wait | Register | Cancel | Steal(_) | Wake(_) =>
        RegistryTouches(s, u, f, a);
        hide FiberStep;
      case _ =>
    }
    hide NextOf;
  }

  lemma StepTouches(s: State, u: nat, a: Action)
    requires Shaped(s)
    ensures OnlyItsOwn(s, Step(s, u, a), u, if u < |s.exec| && s.exec[u].Running? then s.exec[u].fiber else |s.stage|)
  {
    if u < |s.exec| && s.exec[u].Running? && s.exec[u].fiber < |s.stage| {
      FiberStepTouches(s, u, s.exec[u].fiber, a);
      hide FiberStep;
    }
  }

  // ---- Hand-off

  /** No thread executes fiber f or still has to clean up after it. */
  ghost predicate LeftAlone(s: State, f: nat)
    requires Shaped(s) && f < |s.idle|
  {
    forall v: nat | v < |s.exec| :: s.exec[v] != Running(f) && !At(s, f, TransitOn(v))
  }

  /** The flag of a ready fiber is set exactly when the fiber is parked; until then it is on its way out of
      one thread. */
  lemma ReadyFlagMeansParked(s: State, u: nat, k: nat)
    requires Reachable(s) && Shaped(s) && u < |s.exec| && k < |s.tls[u].ready|
    ensures var e := s.tls[u].ready[k];
            && e.fiber < |s.idle| && e.flag < |s.flags| && s.flags[e.flag].live
            && (s.flags[e.flag].value <==> At(s, e.fiber, Parked) && s.stage[e.fiber].flag == e.flag)
            && (s.flags[e.flag].value ==> LeftAlone(s, e.fiber))
            && (!s.flags[e.flag].value ==> !LeftAlone(s, e.fiber))
  {
    ReachableInv(s);
    var e := s.tls[u].ready[k];
    assert EntryOk(s, u, k);
    assert FlagOk(s, e.fiber) && FiberOk(s, e.fiber);
    forall v: nat | v < |s.exec| && s.flags[e.flag].value
      ensures s.exec[v] != Running(e.fiber) && !At(s, e.fiber, TransitOn(v))
    {
      assert ThreadOk(s, v);
    }
    if !s.flags[e.flag].value {
      var p := s.place[e.fiber];
      AtIsPlace(s, e.fiber, p);
      assert p.RunsOn? || p.TransitOn?;
      assert p.thread < |s.exec|;
    }
  }

  /** Whenever a thread starts to execute a fiber, no thread was executing it or had yet to clean up after
      it, it was not idle, it stands where fibers are entered, and it will return to this thread. */
  lemma SwitchIsSafe(s: State, u: nat, a: Action, f: nat)
    requires Reachable(s) && Shaped(s) && u < |s.exec| && f < |s.idle|
    requires s.exec[u] != Running(f) && Step(s, u, a).exec[u] == Running(f)
    ensures LeftAlone(s, f) && !s.idle[f] && Entering(s.stage[f]) && Step(s, u, a).returnTo[f] == u
  {
    ReachableInv(s);
    SwitchesToAcquired(s, u, a, f);
    assert ThreadOk(s, u) && FiberOk(s, f);
    assert At(s, f, ClaimedBy(u));
    AtIsPlace(s, f, ClaimedBy(u));
    hide Step;
    forall v: nat | v < |s.exec| ensures s.exec[v] != Running(f) && !At(s, f, TransitOn(v)) {
      AtIsPlace(s, f, RunsOn(v));
      AtIsPlace(s, f, TransitOn(v));
    }
  }

  lemma NextSwitchesToAcquired(s: State, u: nat, h: nat, f: nat)
    requires Shaped(s) && u < |s.exec| && h < |s.stage| && s.exec[u] == Running(h)
    requires f != h && NextOf(s, u, h).exec[u] == Running(f)
    ensures Acquired(s, u, f) && NextOf(s, u, h).returnTo[f] == u
  {
  }

  lemma SwitchesToAcquired(s: State, u: nat, a: Action, f: nat)
    requires Shaped(s) && u < |s.exec| && f < |s.idle|
    requires s.exec[u] != Running(f) && Step(s, u, a).exec[u] == Running(f)
    ensures Acquired(s, u, f) && Step(s, u, a).returnTo[f] == u
  {
    if a == Next && s.exec[u].Running? && s.exec[u].fiber < |s.stage| {
      NextSwitchesToAcquired(s, u, s.exec[u].fiber, f);
    }
    hide NextOf;
  }

  /** A fiber gets into the pool only once no thread executes it. */
  lemma PoolEntryIsLeft(s: State, u: nat, a: Action, f: nat)
    requires Reachable(s) && Shaped(s) && StepOk(s, u, a) && f < |s.idle|
    requires !s.idle[f] && Step(s, u, a).idle[f]
    ensures forall v: nat | v < |s.exec| :: s.exec[v] != Running(f)
    ensures LeftAlone(Step(s, u, a), f)
  {
    ReachableInv(s);
    var r := Step(s, u, a);
    StepKeepsInvIff(s, u, a);
    assert r.exec == s.exec by { PoolEntryIsCleanup(s, u, a, f); }
    assert FiberOk(r, f);
    forall v: nat | v < |r.exec| ensures r.exec[v] != Running(f) && !At(r, f, TransitOn(v)) {
      AtIsPlace(r, f, RunsOn(v));
      AtIsPlace(r, f, TransitOn(v));
    }
  }

  lemma NextSetsIdle(s: State, u: nat, f: nat, g: nat)
    requires Shaped(s) && u < |s.exec| && f < |s.stage| && g < |s.idle|
    requires !s.idle[g] && NextOf(s, u, f).idle[g]
    ensures NextOf(s, u, f).exec == s.exec
  {
  }

  lemma FiberStepSetsIdle(s: State, u: nat, f: nat, a: Action, g: nat)
    requires Shaped(s) && u < |s.exec| && f < |s.stage| && g < |s.idle|
    requires !s.idle[g] && FiberStep(s, u, f, a).idle[g]
    ensures FiberStep(s, u, f, a).exec == s.exec
  {
    if a == Next { NextSetsIdle(s, u, f, g); }
    hide NextOf;
  }

  lemma PoolEntryIsCleanup(s: State, u: nat, a: Action, g: nat)
    requires Shaped(s) && g < |s.idle| && !s.idle[g] && Step(s, u, a).idle[g]
    ensures Step(s, u, a).exec == s.exec
  {
    if u < |s.exec| && s.exec[u].Running? && s.exec[u].fiber < |s.stage| {
      FiberStepSetsIdle(s, u, s.exec[u].fiber, a, g);
      hide FiberStep;
    }
  }

  /** A fiber has at most one ready entry, in one thread's list, and then no open registration; and at most
      one open registration. */
  lemma OneReadyEntry(s: State, u: nat, k: nat, v: nat, l: nat)
    requires Reachable(s) && Shaped(s)
    requires u < |s.exec| && k < |s.tls[u].ready| && v < |s.exec| && l < |s.tls[v].ready|
    requires s.tls[u].ready[k].fiber == s.tls[v].ready[l].fiber
    ensures u == v && k == l
  {
    ReachableInv(s);
    assert EntryOk(s, u, k) && EntryOk(s, v, l) && Distinct(s, u, k, v, l);
  }

  lemma OneOpenRegistration(s: State, r: nat)
    requires Reachable(s) && Shaped(s) && r < |s.regs| && s.regs[r].status == Registry.Open
    ensures forall q: nat | q < |s.regs| && s.regs[q].fiber == s.regs[r].fiber && s.regs[q].status == Registry.Open
              :: q == r
    ensures forall u: nat, k: nat | u < |s.exec| && k < |s.tls[u].ready| :: s.tls[u].ready[k].fiber != s.regs[r].fiber
  {
    ReachableInv(s);
    assert RegOk(s, r);
    forall q: nat | q < |s.regs| && s.regs[q].fiber == s.regs[r].fiber && s.regs[q].status == Registry.Open
      ensures q == r
    {
      assert RegOk(s, q);
    }
    forall u: nat, k: nat | u < |s.exec| && k < |s.tls[u].ready| ensures s.tls[u].ready[k].fiber != s.regs[r].fiber {
      assert EntryOk(s, u, k);
    }
  }

  // ---- Flags

  /** No flag is read, set or freed after it has been freed; in particular each is freed at most once. */
  lemma FlagsNeverMisused(s: State, u: nat, a: Action, g: nat)
    requires Reachable(s) && Shaped(s) && StepOk(s, u, a) && g < |s.flags|
    ensures !Step(s, u, a).fault
    ensures !s.flags[g].live ==> g < |Step(s, u, a).flags| && Step(s, u, a).flags[g] == s.flags[g]
  {
    ReachableInv(s);
    StepKeepsInvIff(s, u, a);
    if !s.flags[g].live { FreedStaysFreed(s, u, a, g); }
  }

  lemma FreedStaysFreed(s: State, u: nat, a: Action, g: nat)
    requires Shaped(s) && g < |s.flags| && !s.flags[g].live
    ensures g < |Step(s, u, a).flags| && Step(s, u, a).flags[g] == s.flags[g]
  {
    if u < |s.exec| && s.exec[u].Running? && s.exec[u].fiber < |s.stage| {
      NextKeepsFreed(s, u, s.exec[u].fiber, g);
      hide NextOf;
    }
  }

  lemma CheckReadyKeepsFreed(s: State, u: nat, f: nat, k: nat, g: nat)
    requires Shaped(s) && u < |s.exec| && f < |s.stage| && g < |s.flags| && !s.flags[g].live
    ensures g < |CheckReady(s, u, f, k).flags| && CheckReady(s, u, f, k).flags[g] == s.flags[g]
  {
  }

  lemma SwitchKeepsFlags(s: State, u: nat, g: nat)
    requires Shaped(s) && u < |s.exec|
    ensures SwitchTo(s, u, g).flags == s.flags
  {
  }

  lemma NextKeepsFreed(s: State, u: nat, f: nat, g: nat)
    requires Shaped(s) && u < |s.exec| && f < |s.stage| && g < |s.flags| && !s.flags[g].live
    ensures g < |NextOf(s, u, f).flags| && NextOf(s, u, f).flags[g] == s.flags[g]
  {
    match s.stage[f] {
      case Scanning(k) => CheckReadyKeepsFreed(s, u, f, k, g);
      case PoolSwitch(h) => SwitchKeepsFlags(s, u, h);
      case WaitSwitch(_, _, h) => SwitchKeepsFlags(s, u, h);
      case CleanStore(_, to, i, p, _) => HandOverFreesNothing(s, to, i, p);
      case _ =>
    }
    hide HandOver, SwitchTo, CheckReady;
  }

  lemma HandOverFreesNothing(s: State, to: FiberDestination, i: nat, p: FlagPointer)
    requires Shaped(s)
    ensures var r := HandOver(s, to, i, p);
            |r.flags| == |s.flags| && forall g: nat | g < |s.flags| ::
              r.flags[g].live == s.flags[g].live && r.flags[g].owner == s.flags[g].owner
              && (s.flags[g].live || r.flags[g] == s.flags[g])
  {
  }

  /** The flag that a fiber in this stage has allocated and not yet seen freed. */
  predicate Keeps(l: Stage, g: nat) {
    match l
    case HaveFlag(flag) => flag == g
    case Registered(flag, _) => flag == g
    case Declined(flag, _) => flag == g
    case Leaving(flag, _) => flag == g
    case WaitSwitch(flag, _, _) => flag == g
    case WaitResume(flag, _) => flag == g
    case _ => false
  }

  /** Every live flag is that of a wait in progress. */
  ghost predicate NoLeak(s: State)
    requires Shaped(s)
  {
    forall g: nat | g < |s.flags| && s.flags[g].live
      :: s.flags[g].owner < |s.stage| && Keeps(s.stage[s.flags[g].owner], g)
  }

  /** AddWaitingFiber throws. */
  predicate Leaks(s: State, u: nat, a: Action)
    requires Shaped(s)
  {
    a == Full && u < |s.exec| && s.exec[u].Running? && s.exec[u].fiber < |s.stage| && s.stage[s.exec[u].fiber].HaveFlag?
  }

  /** Only the exception for want of a slot leaks a flag. */
  lemma OnlyFullLeaks(s: State, u: nat, a: Action)
    requires Inv(s) && NoLeak(s) && StepOk(s, u, a)
    ensures NoLeak(Step(s, u, a)) <==> !Leaks(s, u, a)
  {
    if u < |s.exec| && s.exec[u].Running? {
      var f := s.exec[u].fiber;
      assert ThreadOk(s, u) && FlagOk(s, f);
      if a == Next { NextLeaksNothing(s, u, f); } else { ActionLeaks(s, u, f, a); }
    }
    assert Shaped(s);
    hide Inv, FiberStep, NextOf;
  }

  lemma ActionLeaks(s: State, u: nat, f: nat, a: Action)
    requires Inv(s) && NoLeak(s) && u < |s.exec| && s.exec[u] == Running(f) && a != Next
    ensures f < |s.idle| && (NoLeak(FiberStep(s, u, f, a)) <==> !Leaks(s, u, a))
  {
    assert ThreadOk(s, u) && FlagOk(s, f);
    if Leaks(s, u, a) { assert FiberStep(s, u, f, a).flags[s.stage[f].flag].live; }
    hide Inv;
  }

  lemma NextLeaksNothing(s: State, u: nat, f: nat)
    requires Inv(s) && NoLeak(s) && u < |s.exec| && s.exec[u] == Running(f)
    ensures f < |s.idle| && NoLeak(NextOf(s, u, f))
  {
    assert ThreadOk(s, u) && FlagOk(s, f) && FiberOk(s, f);
    match s.stage[f] {
      case PoolSwitch(g) => SwitchKeepsFlags(s, u, g);
      case WaitSwitch(_, _, g) => SwitchKeepsFlags(s, u, g);
      case Scanning(k) => if k < |s.tls[u].ready| {
        assert EntryOk(s, u, k);
        assert FlagOk(s, s.tls[u].ready[k].fiber);
      }
      case CleanStore(_, to, i, p, _) => HandOverFreesNothing(s, to, i, p);
      case _ =>
    }
    hide HandOver, Inv, SwitchTo;
  }

  // ---- What counts as misuse

  /** Flag g is not allocated, or has been freed. */
  predicate Dead(s: State, g: nat) {
    g >= |s.flags| || !s.flags[g].live
  }

  /** The step reads, sets or frees a flag that it must not, or stores to an index that is no fiber's. */
  predicate Misuses(s: State, u: nat, a: Action)
    requires Shaped(s)
  {
    u < |s.exec| && s.exec[u].Running? && s.exec[u].fiber < |s.stage| &&
    match (a, s.stage[s.exec[u].fiber])
    case (Next, Scanning(k)) => k < |s.tls[u].ready| && Dead(s, s.tls[u].ready[k].flag)
    case (Next, CleanStore(_, Waiting, _, p, _)) => p == Null || Dead(s, p.id)
    case (Next, CleanStore(_, Pool, i, _, _)) => i >= |s.idle|
    case (Cancel, Registered(g, r)) => Registry.Allowed(s.regs, Registry.WasCancelled(r)) && Dead(s, g)
    case (Steal(r), Registered(g, own)) => MaySteal(s, own, r) && Dead(s, g)
    case _ => false
  }

  lemma NextFaults(s: State, u: nat, f: nat)
    requires Shaped(s) && !s.fault && u < |s.exec| && f < |s.stage| && s.exec[u] == Running(f)
    ensures NextOf(s, u, f).fault <==> Misuses(s, u, Next)
  {
  }

  /** A fault is recorded exactly at such a step: that no run has a fault means that there is none in it. */
  lemma FaultsExactly(s: State, u: nat, a: Action)
    requires Shaped(s) && !s.fault
    ensures Step(s, u, a).fault <==> Misuses(s, u, a)
  {
    if a == Next && u < |s.exec| && s.exec[u].Running? && s.exec[u].fiber < |s.stage| {
      NextFaults(s, u, s.exec[u].fiber);
      hide Misuses;
    }
    hide NextOf;
  }

  // ---- Ready lists

  /** Thread w's ready list has not moved; or w is the stepping thread u, and has put a woken registration at
      its end, or has taken out an entry whose flag is set, and freed that flag. */
  ghost predicate ReadyMoves(s: State, r: State, u: nat, a: Action, w: nat)
    requires Shaped(s) && Shaped(r) && w < |s.exec| == |r.exec|
  {
    var before, after := s.tls[w].ready, r.tls[w].ready;
    || after == before
    || (w == u && a.Wake? && a.reg < |s.regs|
        && after == before + [Entry(s.regs[a.reg].fiber, s.regs[a.reg].flag, a.reg)])
    || (w == u && a == Next && exists k: nat :: TakenOut(s, r, before, after, k))
  }

  predicate TakenOut(s: State, r: State, before: seq<Entry>, after: seq<Entry>, k: nat) {
    k < |before| && after == before[..k] + before[k + 1..]
    && var g := before[k].flag;
       g < |s.flags| && s.flags[g].live && s.flags[g].value && g < |r.flags| && !r.flags[g].live
  }

  lemma CheckMovesReady(s: State, u: nat, f: nat, k: nat, w: nat)
    requires Shaped(s) && u < |s.exec| && f < |s.stage| && w < |s.exec|
    ensures ReadyMoves(s, CheckReady(s, u, f, k), u, Next, w)
  {
    if k < |s.tls[u].ready| && w == u {
      var r := CheckReady(s, u, f, k);
      assert r.tls[u].ready == s.tls[u].ready || TakenOut(s, r, s.tls[u].ready, r.tls[u].ready, k);
    }
  }

  lemma NextMovesReady(s: State, u: nat, f: nat, w: nat)
    requires Shaped(s) && u < |s.exec| && f < |s.stage| && w < |s.exec|
    ensures ReadyMoves(s, NextOf(s, u, f), u, Next, w)
  {
    if s.stage[f].Scanning? {
      CheckMovesReady(s, u, f, s.stage[f].k, w);
      hide CheckReady;
    } else {
      NextKeepsReady(s, u, f, w);
      hide NextOf;
    }
  }

  lemma NextKeepsReady(s: State, u: nat, f: nat, w: nat)
    requires Shaped(s) && u < |s.exec| && f < |s.stage| && w < |s.exec| && !s.stage[f].Scanning?
    ensures NextOf(s, u, f).tls[w].ready == s.tls[w].ready
  {
  }

  /** Ready lists are kept in the order of the wake-ups: an entry comes in at the end of the list of the
      thread that wakes, and leaves it only when that thread goes on with its fiber. */
  lemma ReadyListsMove(s: State, u: nat, a: Action, w: nat)
    requires Shaped(s) && w < |s.exec|
    ensures ReadyMoves(s, Step(s, u, a), u, a, w)
  {
    if u < |s.exec| && s.exec[u].Running? && s.exec[u].fiber < |s.stage| {
      FiberStepMovesReady(s, u, s.exec[u].fiber, a, w);
      hide FiberStep;
    }
  }

  lemma FiberStepMovesReady(s: State, u: nat, f: nat, a: Action, w: nat)
    requires Shaped(s) && u < |s.exec| && f < |s.stage| && w < |s.exec|
    ensures ReadyMoves(s, FiberStep(s, u, f, a), u, a, w)
  {
    if a == Next { NextMovesReady(s, u, f, w); }
    hide NextOf, Registry.Apply;
  }

  /** Waking puts the entry in. */
  lemma WakePutsEntry(s: State, u: nat, f: nat, r: nat)
    requires Inv(s) && u < |s.exec| && s.exec[u] == Running(f) && f < |s.idle| && s.stage[f] == Job
    requires r < |s.regs| && s.regs[r].status == Registry.Open
    ensures var m := Step(s, u, Wake(r));
            && m.tls[u].ready == s.tls[u].ready + [Entry(s.regs[r].fiber, s.regs[r].flag, r)]
            && r < |m.regs| && m.regs[r].status == Registry.Woken
  {
    assert Shaped(s);
    hide Inv;
  }

  /** Ready entry k of thread v is of registration q. */
  predicate EntryFor(s: State, v: nat, k: nat, q: nat)
    requires Shaped(s)
  {
    v < |s.exec| && k < |s.tls[v].ready| && s.tls[v].ready[k].reg == q
  }

  /** Fiber f is still in the wait that registration q is for. */
  predicate InWait(s: State, f: nat, g: nat, q: nat)
    requires Shaped(s)
  {
    f < |s.stage| && HoldsReg(s.stage[f], g, q) && g < |s.flags| && s.flags[g].live
    && q < |s.regs| && s.regs[q].status == Registry.Woken
  }

  /** Every woken registration whose fiber is still in its wait has a ready entry. */
  ghost predicate Announced(s: State)
    requires Shaped(s)
  {
    forall f: nat, g: nat, q: nat | InWait(s, f, g, q) :: HasEntry(s, q)
  }

  ghost predicate HasEntry(s: State, q: nat)
    requires Shaped(s)
  {
    exists v: nat, k: nat :: EntryFor(s, v, k, q)
  }

  /** What is in its wait after a step was in it before, and woken before unless this step wakes it. */
  lemma WasInWait(s: State, u: nat, a: Action, f: nat, g: nat, q: nat)
    requires Inv(s) && InWait(Step(s, u, a), f, g, q)
    ensures InWait(s, f, g, q) || (a == Wake(q) && HasEntry(Step(s, u, a), q))
  {
    assert u < |s.exec| && s.exec[u].Running? ==> ThreadOk(s, u);
    if f < |s.idle| { assert FlagOk(s, f); }
    hide Inv;
    StepTouches(s, u, a);
    if u < |s.exec| && s.exec[u].Running? && s.exec[u].fiber < |s.stage| {
      FiberStepWasInWait(s, u, s.exec[u].fiber, a, f, g, q);
      hide FiberStep;
    }
  }

  lemma FiberStepWasInWait(s: State, u: nat, h: nat, a: Action, f: nat, g: nat, q: nat)
    requires Shaped(s) && u < |s.exec| && h < |s.stage| && f < |s.stage| && FlagOk(s, f)
    requires InWait(FiberStep(s, u, h, a), f, g, q)
    ensures InWait(s, f, g, q) || (a == Wake(q) && HasEntry(FiberStep(s, u, h, a), q))
  {
    var r := FiberStep(s, u, h, a);
    if a == Next {
      NextWasInWait(s, u, h, f, g, q);
    } else if a.Wake? && s.stage[h] == Job && a.reg == q {
      if Registry.Allowed(s.regs, Registry.WasWoken(q)) { assert EntryFor(r, u, |s.tls[u].ready|, q); }
    }
    hide NextOf, FlagOk;
  }

  lemma NextFlags(s: State, u: nat, h: nat, g: nat)
    requires Shaped(s) && u < |s.exec| && h < |s.stage|
    ensures var r := NextOf(s, u, h);
            && r.regs == s.regs && |r.flags| == |s.flags| && (g < |s.flags| && r.flags[g].live ==> s.flags[g].live)
  {
    match s.stage[h] {
      case Scanning(k) => CheckFlags(s, u, h, k, g);
      case _ =>
    }
    hide CheckReady;
  }

  lemma CheckFlags(s: State, u: nat, h: nat, k: nat, g: nat)
    requires Shaped(s) && u < |s.exec| && h < |s.stage|
    ensures var r := CheckReady(s, u, h, k);
            && r.regs == s.regs && |r.flags| == |s.flags| && (g < |s.flags| && r.flags[g].live ==> s.flags[g].live)
  {
  }

  lemma NextHolds(s: State, u: nat, h: nat, g: nat, q: nat)
    requires Shaped(s) && u < |s.exec| && h < |s.stage| && HoldsReg(NextOf(s, u, h).stage[h], g, q)
    ensures HoldsReg(s.stage[h], g, q)
  {
    hide HandOver, SwitchTo;
  }

  lemma NextWasInWait(s: State, u: nat, h: nat, f: nat, g: nat, q: nat)
    requires Shaped(s) && u < |s.exec| && h < |s.stage| && InWait(NextOf(s, u, h), f, g, q)
    ensures InWait(s, f, g, q)
  {
    NextTouches(s, u, h);
    NextFlags(s, u, h, g);
    if f == h { NextHolds(s, u, h, g, q); }
    hide NextOf, HoldsReg;
  }

  /** Only the entry of a fiber that is gone on with is taken out. */
  lemma KeepsEntry(s: State, u: nat, a: Action, f: nat, g: nat, q: nat, v: nat, k: nat)
    requires Inv(s) && InWait(s, f, g, q) && InWait(Step(s, u, a), f, g, q) && EntryFor(s, v, k, q)
    ensures HasEntry(Step(s, u, a), q)
  {
    var r := Step(s, u, a);
    ReadyListsMove(s, u, a, v);
    assert EntryOk(s, v, k) && RegOk(s, q) && FlagOk(s, f);
    var before, after := s.tls[v].ready, r.tls[v].ready;
    if after == before || (a.Wake? && |after| > |before|) {
      assert EntryFor(r, v, k, q);
    } else {
      var j: nat :| TakenOut(s, r, before, after, j);
      assert before[k].flag == g && j != k;
      hide Step, Inv;
      assert EntryFor(r, v, if k < j then k else k - 1, q);
    }
  }

  lemma StepKeepsAnnounced(s: State, u: nat, a: Action)
    requires Inv(s) && Announced(s)
    ensures Announced(Step(s, u, a))
  {
    var r := Step(s, u, a);
    forall f: nat, g: nat, q: nat | InWait(r, f, g, q) ensures HasEntry(r, q) {
      WasInWait(s, u, a, f, g, q);
      if !HasEntry(r, q) {
        assert HasEntry(s, q);
        var v: nat, k: nat :| EntryFor(s, v, k, q);
        KeepsEntry(s, u, a, f, g, q, v, k);
      }
    }
    hide Step, Inv;
  }

  lemma {:induction false} RunKeepsAnnounced(s: State, sched: Schedule)
    requires Inv(s) && Announced(s) && StepsOk(s, sched)
    ensures Inv(Run(s, sched)) && Announced(Run(s, sched))
    decreases |sched|
  {
    RunKeepsInv(s, sched);
    assert Shaped(s);
    if sched != [] {
      var front := sched[..|sched| - 1];
      RunKeepsAnnounced(s, front);
      StepKeepsAnnounced(Run(s, front), sched[|sched| - 1].0, sched[|sched| - 1].1);
    }
    hide Step, Inv, Announced;
  }

  /** No woken fiber is forgotten: from its wake-up until some thread goes on with it, it has a ready entry. */
  lemma NoWokenFiberForgotten(s: State, f: nat, g: nat, q: nat)
    requires Reachable(s) && Shaped(s) && InWait(s, f, g, q)
    ensures HasEntry(s, q)
  {
    var fibers: nat, io: seq<bool>, sched: Schedule :| ReachedBy(s, fibers, io, sched);
    InitInv(fibers, io);
    hide Inv, Init, StepsOk;
    RunKeepsAnnounced(Init(fibers, io), sched);
  }

  // ---- Waits

  /** A fiber goes on after its wait only once its own registration has been woken. */
  lemma ResumedWasWoken(s: State, u: nat, f: nat)
    requires Reachable(s) && Shaped(s) && u < |s.exec| && f < |s.idle|
    requires s.exec[u] == Running(f) && s.stage[f].WaitResume?
    ensures var r := s.stage[f].reg;
            r < |s.regs| && s.regs[r] == Registry.Registration(f, s.stage[f].flag, Registry.Woken)
  {
    ReachableInv(s);
    assert ThreadOk(s, u) && FlagOk(s, f);
  }

  // ---- Return fibers

  /** A fiber executing on a thread returns to that thread's fiber, and a thread that has returned is in its
      own base frame, with nothing left to clean up. */
  lemma ReturnsHome(s: State, u: nat)
    requires Reachable(s) && Shaped(s) && u < |s.exec|
    ensures s.exec[u].Running? ==> s.exec[u].fiber < |s.idle| && s.returnTo[s.exec[u].fiber] == u
    ensures s.exec[u].Home? ==> s.exec[u].base == u && s.tls[u].destination == Nowhere
  {
    ReachableInv(s);
    assert ThreadOk(s, u);
  }
}
