/** What exactly goes wrong, in the scheduler's own terms, with a wrong cached record and with a stolen
    registration. */
module FiberExact {
  import opened ThreadLocals
  import opened FiberMachine
  import opened FiberInvariant
  import opened FiberTheorems

  // ---- Wrong cached records

  /** The step puts fiber f into the pool. */
  predicate Pools(s: State, r: State, f: nat) {
    f < |s.idle| && f < |r.idle| && !s.idle[f] && r.idle[f]
  }

  /** The step sets the stored flag of a wait of fiber f. */
  ghost predicate Stores(s: State, r: State, f: nat) {
    exists g: nat :: g < |s.flags| && g < |r.flags| && s.flags[g].owner == f && s.flags[g].live
                     && !s.flags[g].value && r.flags[g].value
  }

  /** The step pools or stores a fiber that a thread still executes. */
  ghost predicate HandsOverExecuted(s: State, r: State) {
    exists f: nat, v: nat :: v < |r.exec| && r.exec[v] == Running(f) && (Pools(s, r, f) || Stores(s, r, f))
  }

  /** Where the invariant holds, no step hands over a fiber that is still executed. */
  lemma NothingExecutedHandedOver(s: State, u: nat, a: Action)
    requires Inv(s)
    ensures !HandsOverExecuted(s, Step(s, u, a))
  {
    var r := Step(s, u, a);
    if StoresNow(s, u, a) {
      var p := s.tls[u].previous;
      assert ThreadOk(s, u) && FlagOk(s, p) && r.exec == s.exec;
      forall f: nat, v: nat | v < |r.exec| && r.exec[v] == Running(f) ensures !Pools(s, r, f) && !Stores(s, r, f) {
        assert ThreadOk(s, v);
      }
    } else {
      OthersHandOverNothing(s, u, a);
      hide Step, Pools, Stores;
    }
  }

  /** The step is the store of CleanupPreviousFiber. */
  predicate StoresNow(s: State, u: nat, a: Action)
    requires Shaped(s)
  {
    u < |s.exec| && a == Next
    && s.exec[u].Running? && s.exec[u].fiber < |s.stage| && s.stage[s.exec[u].fiber].CleanStore?
  }

  /** No more idle fibers, and no more flags set. */
  ghost predicate NothingSet(s: State, r: State) {
    && (forall f: nat | f < |s.idle| && f < |r.idle| :: r.idle[f] ==> s.idle[f])
    && (forall g: nat | g < |s.flags| && g < |r.flags| :: r.flags[g].value ==> s.flags[g].value)
  }

  lemma NextSetsNothing(s: State, u: nat, f: nat)
    requires Shaped(s) && u < |s.exec| && f < |s.stage| && !s.stage[f].CleanStore?
    ensures NothingSet(s, NextOf(s, u, f))
  {
  }

  lemma OthersHandOverNothing(s: State, u: nat, a: Action)
    requires Shaped(s) && !StoresNow(s, u, a)
    ensures var r := Step(s, u, a); forall f: nat :: !Pools(s, r, f) && !Stores(s, r, f)
  {
    if u < |s.exec| && s.exec[u].Running? && s.exec[u].fiber < |s.stage| && a == Next {
      NextSetsNothing(s, u, s.exec[u].fiber);
    }
    assert NothingSet(s, Step(s, u, a)) by { hide NextOf; }
    hide Step;
  }

  // ---- A clean-up that comes late

  /** Meanwhile: thread u only goes on with its clean-up, of the record of thread c; c does what it likes, and
      all others what keeps the invariant. */
  ghost predicate Meanwhile(s: State, u: nat, c: nat, sched: Schedule)
    requires Shaped(s)
    decreases |sched|
  {
    sched == [] ||
    var front, last := sched[..|sched| - 1], sched[|sched| - 1];
    Meanwhile(s, u, c, front)
    && (if last.0 == u then last.1 == Next else last.0 == c || StepOk(Run(s, front), last.0, last.1))
  }

  ghost predicate HandsOverLate(s: State, u: nat, c: nat, sched: Schedule)
    requires Shaped(s)
  {
    var m := Run(s, sched);
    Meanwhile(s, u, c, sched) && StoresNow(m, u, Next) && HandsOverExecuted(m, Step(m, u, Next))
  }

  /** In some continuation the store of thread u's clean-up hands over a fiber that a thread executes. */
  ghost predicate CanHandOverExecuted(s: State, u: nat, c: nat)
    requires Shaped(s)
  {
    exists sched: Schedule :: HandsOverLate(s, u, c, sched)
  }

  /** Thread u is about to load the destination in the record of thread c, which it has cached. */
  predicate AboutToLoad(s: State, u: nat, c: nat)
    requires Shaped(s)
  {
    u < |s.exec| && c < |s.exec| && s.exec[u].Running? && s.exec[u].fiber < |s.stage|
    && s.stage[s.exec[u].fiber] == PoolResume(c)
  }

  // Its own record: it cannot

  /** Thread u goes through the clean-up of its own record. */
  ghost predicate OwnCleanup(s: State, u: nat, f: nat) {
    && Inv(s) && u < |s.exec| && s.exec[u] == Running(f) && f < |s.stage|
    && !s.stage[f].PoolResume? && NextStays(s.stage[f])
  }

  /** What a clean-up and the rest of GetNextJob go through by Next alone. */
  predicate NextStays(l: Stage) {
    ((l.CleanRead? || l.CleanStore? || l.CleanReset?) && l.after == ToTail) || l.Tail?
  }

  lemma OwnStep(s: State, u: nat, f: nat, v: nat, a: Action)
    requires OwnCleanup(s, u, f) && (if v == u then a == Next else StepOk(s, v, a))
    ensures OwnCleanup(Step(s, v, a), u, f)
  {
    StepKeepsInvIff(s, v, a);
    if v == u {
      assert ThreadOk(s, u);
    } else {
      if v < |s.exec| && s.exec[v].Running? { assert ThreadOk(s, v) && ThreadOk(s, u); }
      NextTouchesOwn(s, v, a, u, f);
    }
    hide Inv;
  }

  lemma NextTouchesOwn(s: State, v: nat, a: Action, u: nat, f: nat)
    requires Shaped(s) && u < |s.exec| && v != u && f < |s.stage|
    requires v < |s.exec| && s.exec[v].Running? ==> s.exec[v].fiber != f
    ensures Step(s, v, a).exec[u] == s.exec[u] && Step(s, v, a).stage[f] == s.stage[f]
  {
    StepTouches(s, v, a);
    hide Step;
  }

  lemma {:induction false} OwnRun(s: State, u: nat, f: nat, sched: Schedule)
    requires OwnCleanup(s, u, f) && Meanwhile(s, u, u, sched)
    ensures OwnCleanup(Run(s, sched), u, f)
    decreases |sched|
  {
    assert Shaped(s);
    hide Step, OwnCleanup, StepOk;
    if sched != [] {
      OwnRun(s, u, f, sched[..|sched| - 1]);
      OwnStep(Run(s, sched[..|sched| - 1]), u, f, sched[|sched| - 1].0, sched[|sched| - 1].1);
    }
  }

  // Another thread's record: it can

  /** The record of thread w has nothing to clean up, or not fiber h. */
  predicate NotNamed(s: State, w: nat, h: nat)
    requires Shaped(s)
  {
    w < |s.exec| && (s.tls[w].destination != Nowhere ==> s.tls[w].previous != h)
  }

  /** How far a fiber that has been switched to is from running a job. */
  function ToRun(l: Stage): nat {
    match l
    case Fresh => 5
    case PoolResume(_) => 5
    case WaitResume(_, _) => 5
    case CleanRead(_, _, _) => 4
    case CleanStore(_, _, _, _, _) => 3
    case CleanReset(_, _) => 2
    case Loop => 1
    case Tail => 1
    case _ => 0
  }

  /** Thread c executes fiber h, which is on its way to a job, is not idle, and is about to hand over another. */
  ghost predicate OnTheWay(s: State, c: nat, h: nat) {
    && Shaped(s) && c < |s.exec| && s.exec[c] == Running(h) && h < |s.stage| && !s.idle[h]
    && s.tls[c].current == h && (ToRun(s.stage[h]) > 0 || s.stage[h] == Job)
    && match s.stage[h]
       case Fresh => NotNamed(s, c, h)
       case WaitResume(_, _) => NotNamed(s, c, h)
       case PoolResume(w) => NotNamed(s, w, h)
       case CleanRead(w, _, _) => w < |s.exec| && s.tls[w].previous != h
       case CleanStore(w, _, i, _, _) => w < |s.exec| && i != h
       case CleanReset(w, _) => w < |s.exec|
       case _ => true
  }

  function Onwards(l: Stage): Action {
    if l.Loop? || l.Tail? then GetJob else Next
  }

  /** What else a thread's way to a job leaves as it is. */
  ghost predicate Elsewhere(s: State, r: State, h: nat)
    requires Shaped(s) && Shaped(r)
  {
    r.exec == s.exec && |r.stage| == |s.stage| && forall f: nat | f < |s.stage| && f != h :: r.stage[f] == s.stage[f]
  }

  lemma OnTheWayStep(s: State, c: nat, h: nat)
    requires OnTheWay(s, c, h) && s.stage[h] != Job
    ensures var r := Step(s, c, Onwards(s.stage[h]));
            OnTheWay(r, c, h) && Elsewhere(s, r, h) && ToRun(r.stage[h]) < ToRun(s.stage[h])
  {
  }

  lemma {:induction false} GetsToJob(s: State, c: nat, h: nat) returns (sched: Schedule)
    requires OnTheWay(s, c, h)
    ensures var r := Run(s, sched); OnTheWay(r, c, h) && Elsewhere(s, r, h) && r.stage[h] == Job
    ensures forall j: nat | j < |sched| :: sched[j].0 == c
    decreases ToRun(s.stage[h])
  {
    if s.stage[h] == Job {
      sched := [];
      assert Run(s, []) == s;
    } else {
      var a := Onwards(s.stage[h]);
      OnTheWayStep(s, c, h);
      hide Step, OnTheWay;
      var rest := GetsToJob(Step(s, c, a), c, h);
      sched := [(c, a)] + rest;
      RunFirst(s, c, a, rest);
    }
  }

  lemma {:induction false} RunFirst(s: State, u: nat, a: Action, rest: Schedule)
    requires Shaped(s)
    ensures Run(s, [(u, a)] + rest) == Run(Step(s, u, a), rest)
    decreases |rest|
  {
    hide Step;
    var all := [(u, a)] + rest;
    if rest == [] {
      assert all[..|all| - 1] == [];
    } else {
      RunFirst(s, u, a, rest[..|rest| - 1]);
      assert all[..|all| - 1] == [(u, a)] + rest[..|rest| - 1];
    }
  }

  lemma ThenStep(s: State, sched: Schedule, u: nat, a: Action)
    requires Shaped(s)
    ensures Run(s, sched + [(u, a)]) == Step(Run(s, sched), u, a)
  {
    assert (sched + [(u, a)])[..|sched|] == sched;
  }

  /** The record of thread c names the fiber it executes, which waits with a flag still unset. */
  ghost predicate NamesExecuted(s: State, c: nat, h: nat) {
    && Shaped(s) && c < |s.exec| && s.exec[c] == Running(h) && h < |s.stage| && !s.idle[h] && s.tls[c].previous == h
    && s.tls[c].stored.Flag? && s.tls[c].stored.id < |s.flags|
    && s.flags[s.tls[c].stored.id] == FlagState(h, true, false)
  }

  lemma WaitsAndNames(s: State, c: nat, h: nat)
    requires OnTheWay(s, c, h) && s.stage[h] == Job
    ensures var r := Step(Step(Step(Step(s, c, Wait), c, Action.Register), c, Decline), c, Next);
            NamesExecuted(r, c, h) && Elsewhere(s, r, h)
  {
    var s1 := Step(s, c, Wait);
    assert s1.stage == s.stage[h := HaveFlag(|s.flags|)] && s1.tls == s.tls && s1.exec == s.exec;
    assert s1.flags == s.flags + [FlagState(h, true, false)] && s1.idle == s.idle;
    var s2 := Step(s1, c, Action.Register);
    assert s2.stage == s.stage[h := Registered(|s.flags|, |s.regs|)] && s2.flags == s1.flags && s2.tls == s.tls;
    assert s2.exec == s.exec && s2.idle == s.idle;
    var s3 := Step(s2, c, Decline);
    assert s3.stage == s.stage[h := Declined(|s.flags|, |s.regs|)] && s3.flags == s1.flags && s3.tls == s.tls;
    assert s3.exec == s.exec && s3.idle == s.idle;
  }

  lemma {:induction false} OnlyCMeanwhile(s: State, u: nat, c: nat, sched: Schedule)
    requires Shaped(s) && u != c && forall j: nat | j < |sched| :: sched[j].0 == c
    ensures Meanwhile(s, u, c, sched)
    decreases |sched|
  {
    if sched != [] {
      OnlyCMeanwhile(s, u, c, sched[..|sched| - 1]);
    }
  }

  /** Thread u has loaded the destination and now reads the record while it names a fiber being executed. */
  lemma ReadsExecuted(s: State, u: nat, f: nat, c: nat, h: nat, to: FiberDestination)
    requires NamesExecuted(s, c, h) && u < |s.exec| && u != c && s.exec[u] == Running(f) && f < |s.stage| && f != h
    requires s.stage[f] == CleanRead(c, to, ToTail) && to != Nowhere
    ensures var m := Step(s, u, Next); StoresNow(m, u, Next) && HandsOverExecuted(m, Step(m, u, Next))
  {
    var m := Step(s, u, Next);
    var r := Step(m, u, Next);
    assert m.stage[f] == CleanStore(c, to, h, s.tls[c].stored, ToTail) && m.idle == s.idle && m.flags == s.flags;
    assert r.exec == s.exec && r.exec[c] == Running(h);
    if to == Pool {
      assert Pools(m, r, h);
    } else {
      var g := s.tls[c].stored.id;
      assert m.flags[g].live && r.flags[g].value;
      assert Stores(m, r, h);
    }
  }

  /** The record's owner has not left the fiber it names: an immediate clean-up is too early. */
  lemma OwnerNamesExecuted(s: State, c: nat)
    requires Inv(s) && c < |s.exec| && s.tls[c].destination != Nowhere && s.exec[c] == Running(s.tls[c].previous)
    ensures var p := s.tls[c].previous;
            && p < |s.stage| && s.exec[c] == Running(p) && !s.idle[p]
            && (s.tls[c].destination == Waiting ==> NamesExecuted(s, c, p))
  {
    assert ThreadOk(s, c);
    assert FiberOk(s, s.tls[c].previous) && FlagOk(s, s.tls[c].previous);
  }

  lemma ReadsTooEarly(s: State, u: nat, f: nat, c: nat, h: nat)
    requires Shaped(s) && c < |s.exec| && s.exec[c] == Running(h)
    requires h < |s.stage| && !s.idle[h] && s.tls[c].previous == h
    requires u < |s.exec| && u != c && s.exec[u] == Running(f) && f < |s.stage|
    requires s.stage[f] == CleanRead(c, Pool, ToTail)
    ensures var m := Step(s, u, Next); StoresNow(m, u, Next) && HandsOverExecuted(m, Step(m, u, Next))
  {
    var m := Step(s, u, Next);
    var r := Step(m, u, Next);
    assert m.stage[f] == CleanStore(c, Pool, h, s.tls[c].stored, ToTail) && m.idle == s.idle;
    assert r.exec == s.exec && r.exec[c] == Running(h) && Pools(m, r, h);
  }

  /** The owner has left that fiber: what it executes now is on its way to a job, unless it has cached a
      record that another thread is about to reset. */
  lemma OwnerOnTheWay(s: State, c: nat)
    requires Inv(s) && c < |s.exec| && s.tls[c].destination != Nowhere && s.exec[c] != Running(s.tls[c].previous)
    ensures s.exec[c].Running? &&
            var h := s.exec[c].fiber;
            h < |s.stage|
            && (OnTheWay(s, c, h) || (s.stage[h].PoolResume? && s.stage[h].cached != c && Spent(s, s.stage[h].cached)))
  {
    assert ThreadOk(s, c);
    var h := s.exec[c].fiber;
    assert FiberOk(s, h) && FlagOk(s, h);
    if s.stage[h].PoolResume? { assert ThreadOk(s, s.stage[h].cached); }
  }

  /** That reset comes first. */
  lemma ResetFirst(s: State, c: nat, h: nat, w: nat)
    requires Inv(s) && c < |s.exec| && s.exec[c] == Running(h) && h < |s.stage| && s.stage[h] == PoolResume(w)
    requires w != c && Spent(s, w)
    ensures var r := Step(s, w, Next);
            && OnTheWay(r, c, h) && r.exec == s.exec && |r.stage| == |s.stage| && StepOk(s, w, Next)
            && forall f: nat | f < |s.stage| && f != s.exec[w].fiber :: r.stage[f] == s.stage[f]
  {
    assert ThreadOk(s, c) && ThreadOk(s, w) && FiberOk(s, h);
  }

  /** Thread c gets on until its record names what it executes. */
  lemma OwnerGetsOn(s: State, u: nat, c: nat, h: nat) returns (sched: Schedule)
    requires OnTheWay(s, c, h) && u != c
    ensures var r := Run(s, sched); NamesExecuted(r, c, h) && Elsewhere(s, r, h)
    ensures forall j: nat | j < |sched| :: sched[j].0 == c
  {
    assert Shaped(s);
    hide Step, OnTheWay;
    var a := GetsToJob(s, c, h);
    FourSteps(s, a, c);
    WaitsAndNames(Run(s, a), c, h);
    sched := a + [(c, Wait)] + [(c, Action.Register)] + [(c, Decline)] + [(c, Next)];
  }

  lemma {:induction false} FirstThenC(s: State, u: nat, c: nat, w: nat, rest: Schedule)
    requires Shaped(s) && u != c && w != u && StepOk(s, w, Next) && forall j: nat | j < |rest| :: rest[j].0 == c
    ensures Meanwhile(s, u, c, [(w, Next)] + rest)
    decreases |rest|
  {
    var all := [(w, Next)] + rest;
    if rest == [] {
      assert all[..|all| - 1] == [] && Run(s, []) == s;
    } else {
      FirstThenC(s, u, c, w, rest[..|rest| - 1]);
      assert all[..|all| - 1] == [(w, Next)] + rest[..|rest| - 1];
    }
  }

  /** Thread u's store, after that. */
  lemma ThenReads(s: State, u: nat, f: nat, c: nat, h: nat, to: FiberDestination, sched: Schedule)
    requires Shaped(s) && Meanwhile(s, u, c, sched) && to != Nowhere && u != c && f != h
    requires var r := Run(s, sched);
             && NamesExecuted(r, c, h) && u < |r.exec| && r.exec[u] == Running(f) && f < |r.stage|
             && r.stage[f] == CleanRead(c, to, ToTail)
    ensures HandsOverLate(s, u, c, sched + [(u, Next)])
  {
    hide Step;
    ReadsExecuted(Run(s, sched), u, f, c, h, to);
    ThenStores(s, u, c, sched);
  }

  lemma ThenStores(s: State, u: nat, c: nat, sched: Schedule)
    requires Shaped(s) && Meanwhile(s, u, c, sched)
    requires var m := Step(Run(s, sched), u, Next); StoresNow(m, u, Next) && HandsOverExecuted(m, Step(m, u, Next))
    ensures HandsOverLate(s, u, c, sched + [(u, Next)])
  {
    hide Step, HandsOverExecuted, StoresNow;
    ThenStep(s, sched, u, Next);
    var all := sched + [(u, Next)];
    assert all[..|all| - 1] == sched && all[|all| - 1] == (u, Next);
  }

  lemma EarlyCanHandOver(s: State, s1: State, u: nat, f: nat, c: nat) returns (sched: Schedule)
    requires Inv(s) && u < |s.exec| && c < |s.exec| && c != u && s.tls[c].destination != Nowhere
    requires s.exec[u] == Running(f) && f < |s.stage|
    requires s1 == SetStage(s, f, CleanRead(c, s.tls[c].destination, ToTail))
    requires s.exec[c] == Running(s.tls[c].previous)
    ensures Shaped(s1) && HandsOverLate(s1, u, c, sched)
  {
    assert ThreadOk(s, u) && ThreadOk(s, c);
    OwnerNamesExecuted(s, c);
    var h, to := s.tls[c].previous, s.tls[c].destination;
    if to == Pool { ReadsTooEarly(s1, u, f, c, h); } else { ReadsExecuted(s1, u, f, c, h, to); }
    assert Run(s1, []) == s1;
    hide Step, Inv, HandsOverExecuted, StoresNow;
    ThenStores(s1, u, c, []);
    sched := [] + [(u, Next)];
  }

  lemma LateCanHandOver(s: State, s1: State, u: nat, f: nat, c: nat) returns (sched: Schedule)
    requires Inv(s) && u < |s.exec| && c < |s.exec| && c != u && s.tls[c].destination != Nowhere
    requires s.exec[u] == Running(f) && f < |s.stage| && s.stage[f] == PoolResume(c)
    requires s1 == SetStage(s, f, CleanRead(c, s.tls[c].destination, ToTail))
    requires s.exec[c] != Running(s.tls[c].previous)
    ensures Shaped(s1) && HandsOverLate(s1, u, c, sched)
  {
    assert ThreadOk(s, u) && ThreadOk(s, c) && Shaped(s1);
    OwnerOnTheWay(s, c);
    var h, to := s.exec[c].fiber, s.tls[c].destination;
    if OnTheWay(s, c, h) {
      assert OnTheWay(s1, c, h);
      sched := OwnerGetsOn(s1, u, c, h);
      OnlyCMeanwhile(s1, u, c, sched);
      hide Step, Inv, OnTheWay;
      ThenReads(s1, u, f, c, h, to, sched);
      sched := sched + [(u, Next)];
    } else {
      var w := s.stage[h].cached;
      assert w != u && s.exec[w].fiber != f;
      ResetFirst(s, c, h, w);
      ResetElsewhere(s, s1, f, w);
      var s2 := Step(s1, w, Next);
      assert OnTheWay(s2, c, h);
      hide Step, Inv, OnTheWay;
      var rest := OwnerGetsOn(s2, u, c, h);
      FirstThenC(s1, u, c, w, rest);
      RunFirst(s1, w, Next, rest);
      sched := [(w, Next)] + rest;
      ThenReads(s1, u, f, c, h, to, sched);
      sched := sched + [(u, Next)];
    }
  }

  /** A reset does the same whatever stage another fiber is at. */
  lemma ResetElsewhere(s: State, s1: State, f: nat, w: nat)
    requires Shaped(s) && Shaped(s1) && Spent(s, w) && f < |s.stage| == |s1.stage| && f != s.exec[w].fiber
    requires s1 == SetStage(s, f, s1.stage[f]) && StepOk(s, w, Next)
    ensures Step(s1, w, Next) == SetStage(Step(s, w, Next), f, s1.stage[f]) && StepOk(s1, w, Next)
  {
    var h := s.exec[w].fiber;
    assert s1.stage[h] == s.stage[h];
    var l := After(s.stage[h].after);
    assert s.stage[f := s1.stage[f]][h := l] == s.stage[h := l][f := s1.stage[f]];
  }

  /** After the load, the owner goes on until its record names what it executes; then comes the store. */
  lemma ForeignCanHandOver(s: State, u: nat, f: nat, c: nat) returns (sched: Schedule)
    requires Inv(s) && u < |s.exec| && c < |s.exec| && c != u && s.tls[c].destination != Nowhere
    requires s.exec[u] == Running(f) && f < |s.stage| && s.stage[f] == PoolResume(c)
    ensures HandsOverLate(Step(s, u, Next), u, c, sched)
  {
    var s1 := Step(s, u, Next);
    assert s1 == SetStage(s, f, CleanRead(c, s.tls[c].destination, ToTail));
    hide Step, Inv;
    if s.exec[c] == Running(s.tls[c].previous) {
      sched := EarlyCanHandOver(s, s1, u, f, c);
    } else {
      sched := LateCanHandOver(s, s1, u, f, c);
    }
  }

  lemma FourSteps(s: State, a: Schedule, c: nat)
    requires Shaped(s)
    ensures Run(s, a + [(c, Wait)] + [(c, Action.Register)] + [(c, Decline)] + [(c, Next)])
         == Step(Step(Step(Step(Run(s, a), c, Wait), c, Action.Register), c, Decline), c, Next)
  {
    hide Step;
    ThenStep(s, a, c, Wait);
    ThenStep(s, a + [(c, Wait)], c, Action.Register);
    ThenStep(s, a + [(c, Wait)] + [(c, Action.Register)], c, Decline);
    ThenStep(s, a + [(c, Wait)] + [(c, Action.Register)] + [(c, Decline)], c, Next);
  }

  /** In hand-off terms, delays included: when the cached record of thread c has something to clean up, the
      clean-up that thread u begins can hand over a fiber still executed if and only if c is not u. */
  lemma LateCleanupIff(s: State, u: nat, c: nat)
    requires Inv(s) && AboutToLoad(s, u, c) && s.tls[c].destination != Nowhere
    ensures CanHandOverExecuted(Step(s, u, Next), u, c) <==> c != u
  {
    var f := s.exec[u].fiber;
    var s1 := Step(s, u, Next);
    if c != u {
      var sched := ForeignCanHandOver(s, u, f, c);
    } else {
      StepKeepsInvIff(s, u, Next);
      assert OwnCleanup(s1, u, f) by { assert ThreadOk(s, u); }
      hide Step, Run, OwnCleanup;
      forall sched: Schedule ensures !HandsOverLate(s1, u, u, sched) {
        if Meanwhile(s1, u, u, sched) {
          OwnRun(s1, u, f, sched);
          OwnIsInv(Run(s1, sched), u, f);
          NothingExecutedHandedOver(Run(s1, sched), u, Next);
        }
      }
    }
  }

  lemma OwnIsInv(s: State, u: nat, f: nat)
    requires OwnCleanup(s, u, f)
    ensures Inv(s)
  {
  }

  /** When the record has nothing to clean up, the clean-up is over with its load, and has changed nothing. */
  lemma NothingToCleanUp(s: State, u: nat, c: nat)
    requires Inv(s) && AboutToLoad(s, u, c) && s.tls[c].destination == Nowhere
    ensures Step(s, u, Next) == SetStage(s, s.exec[u].fiber, Tail)
  {
  }

  // ---- Stolen registrations

  /** Some ready entry's flag has been freed: a scan of that list will read it. */
  ghost predicate FreedFlagInList(s: State)
    requires Shaped(s)
  {
    exists v: nat, k: nat :: DeadEntry(s, v, k)
  }

  predicate DeadEntry(s: State, v: nat, k: nat)
    requires Shaped(s)
  {
    v < |s.exec| && k < |s.tls[v].ready|
    && (s.tls[v].ready[k].flag >= |s.flags| || !s.flags[s.tls[v].ready[k].flag].live)
  }

  /** The thief, answered true, has been woken before: it has a ready entry. */
  ghost predicate ThiefWasWoken(s: State, u: nat, a: Action)
    requires Shaped(s)
  {
    Steals(s, u, a) && exists v: nat, k: nat :: EntryFor(s, v, k, s.stage[s.exec[u].fiber].reg)
  }

  lemma TheftFreesFlag(s: State, u: nat, a: Action)
    requires Inv(s) && Steals(s, u, a)
    ensures FreedFlagInList(Step(s, u, a)) <==> ThiefWasWoken(s, u, a)
  {
    var f, r := s.exec[u].fiber, Step(s, u, a);
    var g, own := s.stage[f].flag, s.stage[f].reg;
    assert ThreadOk(s, u) && FlagOk(s, f);
    assert r.tls == s.tls && r.exec == s.exec && r.flags == s.flags[g := s.flags[g].(live := false)];
    forall v: nat, k: nat | v < |s.exec| && k < |s.tls[v].ready|
      ensures DeadEntry(r, v, k) <==> EntryFor(s, v, k, own)
    {
      assert EntryOk(s, v, k);
      assert FlagOk(s, s.tls[v].ready[k].fiber);
    }
    hide Step, Inv;
    if FreedFlagInList(r) {
      var v: nat, k: nat :| DeadEntry(r, v, k);
      assert EntryFor(s, v, k, own);
    }
    if ThiefWasWoken(s, u, a) {
      var v: nat, k: nat :| EntryFor(s, v, k, own);
      assert DeadEntry(r, v, k);
    }
  }

  lemma WrongRecordFreesNothing(s: State, u: nat, a: Action)
    requires Inv(s) && !RecordOk(s, u, a)
    ensures !FreedFlagInList(Step(s, u, a))
  {
    var r := Step(s, u, a);
    assert r.exec == s.exec && r.flags == s.flags && r.tls == s.tls;
    hide Step;
    forall v: nat, k: nat | v < |r.exec| && k < |r.tls[v].ready|
      ensures !DeadEntry(r, v, k)
    {
      assert EntryOk(s, v, k);
    }
  }

  /** A ready list comes to hold an entry whose flag has been freed if and only if a waiter that has been
      woken is answered true by cancelling another's registration. */
  lemma FreedFlagInListIff(s: State, u: nat, a: Action)
    requires Inv(s)
    ensures FreedFlagInList(Step(s, u, a)) <==> ThiefWasWoken(s, u, a)
  {
    var r := Step(s, u, a);
    if Steals(s, u, a) {
      TheftFreesFlag(s, u, a);
    } else if !RecordOk(s, u, a) {
      WrongRecordFreesNothing(s, u, a);
    } else {
      StepKeepsInvIff(s, u, a);
      hide Step;
      forall v: nat, k: nat | v < |r.exec| && k < |r.tls[v].ready|
        ensures !DeadEntry(r, v, k)
      {
        assert EntryOk(r, v, k);
      }
    }
  }

  /** In a reachable state every theft does so: its thief is always a waiter that has been woken. */
  lemma TheftFreesFlagIff(s: State, u: nat, a: Action)
    requires Reachable(s) && Shaped(s)
    ensures FreedFlagInList(Step(s, u, a)) <==> Steals(s, u, a)
  {
    ReachableInv(s);
    FreedFlagInListIff(s, u, a);
    if Steals(s, u, a) {
      var f := s.exec[u].fiber;
      var g, own := s.stage[f].flag, s.stage[f].reg;
      assert ThreadOk(s, u) && FlagOk(s, f);
      assert InWait(s, f, g, own);
      hide Inv, Step, Reachable, FreedFlagInList;
      NoWokenFiberForgotten(s, f, g, own);
      var v: nat, k: nat :| EntryFor(s, v, k, own);
    }
  }
}
