/** The invariant of the fiber hand-off, and exactly which steps keep it: all but the clean-up of a cached
    thread record that is not the one due, and the cancellation of another fiber's registration. */
module FiberInvariant {
  import opened ThreadLocals
  import opened FiberMachine
  import opened Registry

  /** A fiber that is switched to here first cleans up after its thread's previous fiber. */
  predicate Entering(l: Stage) {
    l.Fresh? || l.PoolResume? || l.WaitResume?
  }

  /** The registration a fiber has made and not finished with. */
  predicate HoldsReg(l: Stage, g: nat, r: nat) {
    match l
    case Registered(flag, reg) => flag == g && reg == r
    case Declined(flag, reg) => flag == g && reg == r
    case Leaving(flag, reg) => flag == g && reg == r
    case WaitSwitch(flag, reg, _) => flag == g && reg == r
    case WaitResume(flag, reg) => flag == g && reg == r
    case _ => false
  }

  /** Thread u's record names the fiber it has just left. */
  ghost predicate HandOff(s: State, u: nat)
    requires Shaped(s) && u < |s.exec|
  {
    var t := s.tls[u];
    && t.previous < |s.idle| && s.place[t.previous] == TransitOn(u)
    && (t.destination == Pool ==> s.stage[t.previous].PoolResume?)
    && (t.destination == Waiting ==> s.stage[t.previous].WaitResume? && t.stored == Flag(s.stage[t.previous].flag))
  }

  ghost predicate RunningOk(s: State, u: nat, f: nat)
    requires Shaped(s) && u < |s.exec| && f < |s.idle|
  {
    var t := s.tls[u];
    match s.stage[f]
    case PoolSwitch(g) =>
      t.destination == Pool && t.previous == f && t.current == g && g < |s.idle| && s.place[g] == ClaimedBy(u)
    case Leaving(g, _) => t.destination == Waiting && t.previous == f && t.stored == Flag(g) && t.current == f
    case WaitSwitch(g, _, i) =>
      t.destination == Waiting && t.previous == f && t.stored == Flag(g) && t.current == i
      && i < |s.idle| && s.place[i] == ClaimedBy(u)
    case Exited => false
    case Fresh => t.current == f && (t.destination != Nowhere ==> HandOff(s, u) && !s.isMain[f])
    case PoolResume(_) => t.current == f && (t.destination != Nowhere ==> HandOff(s, u))
    case WaitResume(_, _) => t.current == f && (t.destination != Nowhere ==> HandOff(s, u))
    case CleanRead(c, to, _) => c == u && t.current == f && t.destination == to && to != Nowhere && HandOff(s, u)
    case CleanStore(c, to, i, g, _) =>
      c == u && t.current == f && t.destination == to && to != Nowhere
      && t.previous == i && t.stored == g && HandOff(s, u)
    case CleanReset(c, _) => c == u && t.current == f && t.destination != Nowhere && t.previous != f
    case _ => t.current == f && t.destination == Nowhere
  }

  ghost predicate ThreadOk(s: State, u: nat)
    requires Shaped(s) && u < |s.exec|
  {
    match s.exec[u]
    case BaseStart => s.tls[u].destination == Nowhere
    case BaseHolding(i) =>
      i < |s.idle| && s.place[i] == ClaimedBy(u) && s.tls[u].destination == Nowhere && s.tls[u].current == i
    case Home(w) => w == u && s.tls[u].destination == Nowhere
    case Running(f) => f < |s.idle| && s.place[f] == RunsOn(u) && s.returnTo[f] == u && RunningOk(s, u, f)
  }

  /** Thread u has acquired fiber f and not switched to it yet. */
  ghost predicate Acquired(s: State, u: nat, f: nat)
    requires Shaped(s)
  {
    u < |s.exec| &&
    match s.exec[u]
    case BaseHolding(i) => i == f
    case Running(h) => h < |s.idle| && (s.stage[h] == PoolSwitch(f) || (s.stage[h].WaitSwitch? && s.stage[h].next == f))
    case _ => false
  }

  /** Thread u has done the store of its clean-up: what its record names is no longer its to hand over. */
  predicate Spent(s: State, u: nat) {
    u < |s.exec| && s.exec[u].Running? && s.exec[u].fiber < |s.stage| && s.stage[s.exec[u].fiber].CleanReset?
  }

  ghost predicate FiberOk(s: State, f: nat)
    requires Shaped(s) && f < |s.idle|
  {
    && (s.idle[f] <==> s.place[f] == InPool)
    && (s.isMain[f] && s.stage[f] == Fresh ==> s.place[f].RunsOn?)
    && match s.place[f]
       case InPool => s.stage[f].Fresh? || s.stage[f].PoolResume?
       case ClaimedBy(u) => Acquired(s, u, f) && Entering(s.stage[f])
       case RunsOn(u) => u < |s.exec| && s.exec[u] == Running(f)
       case TransitOn(u) =>
         && u < |s.exec| && s.tls[u].destination != Nowhere && s.tls[u].previous == f
         && s.exec[u].Running? && s.exec[u].fiber != f && !Spent(s, u)
         && (s.stage[f].PoolResume? || s.stage[f].WaitResume?)
       case Parked => s.stage[f].WaitResume?
       case Gone => s.stage[f] == Exited
  }

  ghost predicate RegIs(s: State, r: nat, f: nat, g: nat) {
    r < |s.regs| && s.regs[r].fiber == f && s.regs[r].flag == g && s.regs[r].status != Cancelled
  }

  ghost predicate FlagOk(s: State, f: nat)
    requires Shaped(s) && f < |s.idle|
  {
    match s.stage[f]
    case HaveFlag(g) => g < |s.flags| && s.flags[g] == FlagState(f, true, false)
    case Registered(g, r) => g < |s.flags| && s.flags[g] == FlagState(f, true, false) && RegIs(s, r, f, g)
    case Declined(g, r) => g < |s.flags| && s.flags[g] == FlagState(f, true, false) && RegIs(s, r, f, g)
    case Leaving(g, r) => g < |s.flags| && s.flags[g] == FlagState(f, true, false) && RegIs(s, r, f, g)
    case WaitSwitch(g, r, _) => g < |s.flags| && s.flags[g] == FlagState(f, true, false) && RegIs(s, r, f, g)
    case PoolResume(c) => c < |s.exec|
    case WaitResume(g, r) =>
      && g < |s.flags| && s.flags[g].owner == f && RegIs(s, r, f, g)
      && (s.flags[g].live <==> s.place[f].TransitOn? || s.place[f] == Parked)
      && (s.flags[g].live ==> (s.flags[g].value <==> s.place[f] == Parked))
      && (!s.flags[g].live ==> s.regs[r].status == Woken)
    case _ => true
  }

  ghost predicate RegOk(s: State, r: nat)
    requires Shaped(s) && r < |s.regs|
  {
    var f := s.regs[r].fiber;
    f < |s.idle| && (s.regs[r].status == Open ==> HoldsReg(s.stage[f], s.regs[r].flag, r))
  }

  ghost predicate EntryOk(s: State, u: nat, k: nat)
    requires Shaped(s) && u < |s.exec| && k < |s.tls[u].ready|
  {
    var e := s.tls[u].ready[k];
    && e.reg < |s.regs| && s.regs[e.reg] == Registration(e.fiber, e.flag, Woken)
    && e.fiber < |s.idle| && HoldsReg(s.stage[e.fiber], e.flag, e.reg)
    && e.flag < |s.flags| && s.flags[e.flag].live
  }

  ghost predicate Distinct(s: State, u: nat, k: nat, v: nat, l: nat)
    requires Shaped(s) && u < |s.exec| && k < |s.tls[u].ready| && v < |s.exec| && l < |s.tls[v].ready|
  {
    s.tls[u].ready[k].reg == s.tls[v].ready[l].reg ==> u == v && k == l
  }

  ghost predicate EntriesOk(s: State)
    requires Shaped(s)
  {
    && (forall u: nat, k: nat | u < |s.exec| && k < |s.tls[u].ready| :: EntryOk(s, u, k))
    && (forall u: nat, k: nat, v: nat, l: nat |
          u < |s.exec| && k < |s.tls[u].ready| && v < |s.exec| && l < |s.tls[v].ready| :: Distinct(s, u, k, v, l))
  }

  ghost predicate Inv(s: State) {
    && Shaped(s) && !s.fault
    && (forall u: nat | u < |s.exec| :: ThreadOk(s, u))
    && (forall f: nat | f < |s.idle| :: FiberOk(s, f))
    && (forall f: nat | f < |s.idle| :: FlagOk(s, f))
    && (forall r: nat | r < |s.regs| :: RegOk(s, r))
    && EntriesOk(s)
  }

  lemma InitInv(fibers: nat, io: seq<bool>)
    ensures Inv(Init(fibers, io))
  {
  }

  /** Moves among the stages in which a fiber owns nothing. */
  predicate Plain(l: Stage) {
    l.Loop? || l.Scanning? || l.Tail? || l.Job?
  }

  /** Steps that leave ready lists and registrations alone, and free no flag. */
  lemma SameEntries(s: State, r: State)
    requires Shaped(s) && Shaped(r) && EntriesOk(s) && |r.exec| == |s.exec| && |r.idle| == |s.idle|
    requires forall v: nat | v < |s.exec| :: r.tls[v].ready == s.tls[v].ready
    requires r.regs == s.regs && |r.flags| >= |s.flags|
    requires forall g: nat | g < |s.flags| && s.flags[g].live :: r.flags[g].live
    requires forall f: nat, g: nat, j: nat | f < |s.idle| && g < |s.flags| &&
             s.flags[g].live && HoldsReg(s.stage[f], g, j) ::
               HoldsReg(r.stage[f], g, j)
    ensures EntriesOk(r)
  {
    forall v: nat, k: nat | v < |r.exec| && k < |r.tls[v].ready| ensures EntryOk(r, v, k) { assert EntryOk(s, v, k); }
    forall v: nat, k: nat, w: nat, l: nat |
      v < |r.exec| && k < |r.tls[v].ready| && w < |r.exec| && l < |r.tls[w].ready|
      ensures Distinct(r, v, k, w, l) { assert Distinct(s, v, k, w, l); }
  }

  lemma PlainStep(s: State, u: nat, f: nat, l: Stage)
    requires Inv(s) && u < |s.exec|
    requires s.exec[u] == Running(f) && f < |s.idle|
    requires Plain(s.stage[f]) && Plain(l)
    ensures Inv(SetStage(s, f, l))
  {
    hide EntriesOk;
    var r := SetStage(s, f, l);
    assert ThreadOk(s, u) && FiberOk(s, f) && FlagOk(s, f);
    forall v: nat | v < |r.exec| ensures ThreadOk(r, v) { assert ThreadOk(s, v); }
    forall h: nat | h < |r.idle| ensures FiberOk(r, h) { assert FiberOk(s, h); }
    forall h: nat | h < |r.idle| ensures FlagOk(r, h) { assert FlagOk(s, h); }
    forall j: nat | j < |r.regs| ensures RegOk(r, j) { assert RegOk(s, j); }
    SameEntries(s, r);
  }

  lemma AllocateStep(s: State, u: nat, f: nat)
    requires Inv(s) && u < |s.exec|
    requires s.exec[u] == Running(f) && f < |s.idle|
    requires s.stage[f] == Job
    ensures Inv(FiberStep(s, u, f, Wait))
  {
    hide EntriesOk;
    var r := FiberStep(s, u, f, Wait);
    assert ThreadOk(s, u) && FiberOk(s, f) && FlagOk(s, f);
    forall v: nat | v < |r.exec| ensures ThreadOk(r, v) { assert ThreadOk(s, v); }
    forall h: nat | h < |r.idle| ensures FiberOk(r, h) { assert FiberOk(s, h); }
    forall h: nat | h < |r.idle| ensures FlagOk(r, h) { assert FlagOk(s, h); }
    forall j: nat | j < |r.regs| ensures RegOk(r, j) { assert RegOk(s, j); }
    SameEntries(s, r);
  }

  lemma FullStep(s: State, u: nat, f: nat)
    requires Inv(s) && u < |s.exec|
    requires s.exec[u] == Running(f) && f < |s.idle|
    requires s.stage[f].HaveFlag?
    ensures Inv(FiberStep(s, u, f, Full))
  {
    hide EntriesOk;
    var r := FiberStep(s, u, f, Full);
    assert ThreadOk(s, u) && FiberOk(s, f) && FlagOk(s, f);
    forall v: nat | v < |r.exec| ensures ThreadOk(r, v) { assert ThreadOk(s, v); }
    forall h: nat | h < |r.idle| ensures FiberOk(r, h) { assert FiberOk(s, h); }
    forall h: nat | h < |r.idle| ensures FlagOk(r, h) { assert FlagOk(s, h); }
    forall j: nat | j < |r.regs| ensures RegOk(r, j) { assert RegOk(s, j); }
    SameEntries(s, r);
  }

  lemma DeclineStep(s: State, u: nat, f: nat)
    requires Inv(s) && u < |s.exec|
    requires s.exec[u] == Running(f) && f < |s.idle|
    requires s.stage[f].Registered?
    ensures Inv(FiberStep(s, u, f, Decline))
  {
    hide EntriesOk;
    var r := FiberStep(s, u, f, Decline);
    assert ThreadOk(s, u) && FiberOk(s, f) && FlagOk(s, f);
    forall v: nat | v < |r.exec| ensures ThreadOk(r, v) { assert ThreadOk(s, v); }
    forall h: nat | h < |r.idle| ensures FiberOk(r, h) { assert FiberOk(s, h); }
    forall h: nat | h < |r.idle| ensures FlagOk(r, h) { assert FlagOk(s, h); }
    forall j: nat | j < |r.regs| ensures RegOk(r, j) { assert RegOk(s, j); }
    SameEntries(s, r);
  }

  lemma LeavingStep(s: State, u: nat, f: nat)
    requires Inv(s) && u < |s.exec|
    requires s.exec[u] == Running(f) && f < |s.idle|
    requires s.stage[f].Declined?
    ensures Inv(NextOf(s, u, f))
  {
    hide EntriesOk;
    var r := NextOf(s, u, f);
    assert ThreadOk(s, u) && FiberOk(s, f) && FlagOk(s, f);
    forall v: nat | v < |r.exec| ensures ThreadOk(r, v) { assert ThreadOk(s, v); }
    forall h: nat | h < |r.idle| ensures FiberOk(r, h) { assert FiberOk(s, h); }
    forall h: nat | h < |r.idle| ensures FlagOk(r, h) { assert FlagOk(s, h); }
    forall j: nat | j < |r.regs| ensures RegOk(r, j) { assert RegOk(s, j); }
    SameEntries(s, r);
  }

  lemma BaseClaimStep(s: State, u: nat, i: nat)
    requires Inv(s) && u < |s.exec|
    requires s.exec[u] == BaseStart && i < |s.idle| && s.idle[i]
    ensures Inv(Step(s, u, Claim(i)))
  {
    hide EntriesOk;
    var r := Step(s, u, Claim(i));
    assert ThreadOk(s, u) && FiberOk(s, i);
    forall v: nat | v < |r.exec| ensures ThreadOk(r, v) { assert ThreadOk(s, v); }
    forall h: nat | h < |r.idle| ensures FiberOk(r, h) { assert FiberOk(s, h); }
    forall h: nat | h < |r.idle| ensures FlagOk(r, h) { assert FlagOk(s, h); }
    forall j: nat | j < |r.regs| ensures RegOk(r, j) { assert RegOk(s, j); }
    SameEntries(s, r);
  }

  lemma WaitClaimStep(s: State, u: nat, f: nat, i: nat)
    requires Inv(s) && u < |s.exec|
    requires s.exec[u] == Running(f) && f < |s.idle|
    requires s.stage[f].Leaving? && i < |s.idle| && s.idle[i]
    ensures Inv(FiberStep(s, u, f, Claim(i)))
  {
    hide EntriesOk;
    var r := FiberStep(s, u, f, Claim(i));
    assert ThreadOk(s, u) && FiberOk(s, f) && FlagOk(s, f);
    assert FiberOk(s, i);
    WaitClaimThreads(s, u, f, i);
    forall h: nat | h < |r.idle| ensures FiberOk(r, h) { assert FiberOk(s, h); }
    WaitClaimOwned(s, u, f, i);
    SameEntries(s, r);
  }

  lemma WaitClaimThreads(s: State, u: nat, f: nat, i: nat)
    requires Inv(s) && u < |s.exec|
    requires s.exec[u] == Running(f) && f < |s.idle|
    requires s.stage[f].Leaving? && i < |s.idle| && s.idle[i]
    ensures forall v: nat | v < |s.exec| :: ThreadOk(FiberStep(s, u, f, Claim(i)), v)
  {
    hide EntriesOk;
    var r := FiberStep(s, u, f, Claim(i));
    assert ThreadOk(s, u) && FiberOk(s, f) && FlagOk(s, f);
    assert FiberOk(s, i);
    forall v: nat | v < |r.exec| ensures ThreadOk(r, v) { assert ThreadOk(s, v); }
  }

  lemma WaitClaimOwned(s: State, u: nat, f: nat, i: nat)
    requires Inv(s) && u < |s.exec|
    requires s.exec[u] == Running(f) && f < |s.idle|
    requires s.stage[f].Leaving? && i < |s.idle| && s.idle[i]
    ensures forall h: nat | h < |s.idle| :: FlagOk(FiberStep(s, u, f, Claim(i)), h)
    ensures forall j: nat | j < |FiberStep(s, u, f, Claim(i)).regs| :: RegOk(FiberStep(s, u, f, Claim(i)), j)
  {
    hide EntriesOk;
    var r := FiberStep(s, u, f, Claim(i));
    assert ThreadOk(s, u) && FiberOk(s, f) && FlagOk(s, f);
    assert FiberOk(s, i);
    forall h: nat | h < |r.idle| ensures FlagOk(r, h) { assert FlagOk(s, h); }
    forall j: nat | j < |r.regs| ensures RegOk(r, j) { assert RegOk(s, j); }
  }

  lemma BaseSwitchStep(s: State, u: nat, i: nat)
    requires Inv(s) && u < |s.exec|
    requires s.exec[u] == BaseHolding(i)
    ensures Inv(Step(s, u, Next))
  {
    hide EntriesOk;
    var r := Step(s, u, Next);
    assert ThreadOk(s, u) && FiberOk(s, i) && FlagOk(s, i);
    BaseSwitchThreads(s, u, i);
    forall h: nat | h < |r.idle| ensures FiberOk(r, h) { assert FiberOk(s, h); }
    BaseSwitchOwned(s, u, i);
    SameEntries(s, r);
  }

  lemma BaseSwitchThreads(s: State, u: nat, i: nat)
    requires Inv(s) && u < |s.exec|
    requires s.exec[u] == BaseHolding(i)
    ensures forall v: nat | v < |s.exec| :: ThreadOk(Step(s, u, Next), v)
  {
    hide EntriesOk;
    var r := Step(s, u, Next);
    assert ThreadOk(s, u) && FiberOk(s, i) && FlagOk(s, i);
    forall v: nat | v < |r.exec| ensures ThreadOk(r, v) { assert ThreadOk(s, v); }
  }

  lemma BaseSwitchOwned(s: State, u: nat, i: nat)
    requires Inv(s) && u < |s.exec|
    requires s.exec[u] == BaseHolding(i)
    ensures forall h: nat | h < |s.idle| :: FlagOk(Step(s, u, Next), h)
    ensures forall j: nat | j < |Step(s, u, Next).regs| :: RegOk(Step(s, u, Next), j)
  {
    hide EntriesOk;
    var r := Step(s, u, Next);
    assert ThreadOk(s, u) && FiberOk(s, i) && FlagOk(s, i);
    forall h: nat | h < |r.idle| ensures FlagOk(r, h) { assert FlagOk(s, h); }
    forall j: nat | j < |r.regs| ensures RegOk(r, j) { assert RegOk(s, j); }
  }

  lemma PoolSwitchStep(s: State, u: nat, f: nat)
    requires Inv(s) && u < |s.exec|
    requires s.exec[u] == Running(f) && f < |s.idle|
    requires s.stage[f].PoolSwitch?
    ensures Inv(NextOf(s, u, f))
  {
    hide EntriesOk;
    var r := NextOf(s, u, f);
    assert ThreadOk(s, u) && FiberOk(s, f) && FlagOk(s, f);
    assert FiberOk(s, s.stage[f].next) && FlagOk(s, s.stage[f].next);
    PoolSwitchThreads(s, u, f);
    forall h: nat | h < |r.idle| ensures FiberOk(r, h) { assert FiberOk(s, h); }
    PoolSwitchOwned(s, u, f);
    SameEntries(s, r);
  }

  lemma PoolSwitchThreads(s: State, u: nat, f: nat)
    requires Inv(s) && u < |s.exec|
    requires s.exec[u] == Running(f) && f < |s.idle|
    requires s.stage[f].PoolSwitch?
    ensures forall v: nat | v < |s.exec| :: ThreadOk(NextOf(s, u, f), v)
  {
    hide EntriesOk;
    var r := NextOf(s, u, f);
    assert ThreadOk(s, u) && FiberOk(s, f) && FlagOk(s, f);
    assert FiberOk(s, s.stage[f].next) && FlagOk(s, s.stage[f].next);
    forall v: nat | v < |r.exec| ensures ThreadOk(r, v) { assert ThreadOk(s, v); }
  }

  lemma PoolSwitchOwned(s: State, u: nat, f: nat)
    requires Inv(s) && u < |s.exec|
    requires s.exec[u] == Running(f) && f < |s.idle|
    requires s.stage[f].PoolSwitch?
    ensures forall h: nat | h < |s.idle| :: FlagOk(NextOf(s, u, f), h)
    ensures forall j: nat | j < |NextOf(s, u, f).regs| :: RegOk(NextOf(s, u, f), j)
  {
    hide EntriesOk;
    var r := NextOf(s, u, f);
    assert ThreadOk(s, u) && FiberOk(s, f) && FlagOk(s, f);
    assert FiberOk(s, s.stage[f].next) && FlagOk(s, s.stage[f].next);
    forall h: nat | h < |r.idle| ensures FlagOk(r, h) { assert FlagOk(s, h); }
    forall j: nat | j < |r.regs| ensures RegOk(r, j) { assert RegOk(s, j); }
  }

  lemma WaitSwitchStep(s: State, u: nat, f: nat)
    requires Inv(s) && u < |s.exec|
    requires s.exec[u] == Running(f) && f < |s.idle|
    requires s.stage[f].WaitSwitch?
    ensures Inv(NextOf(s, u, f))
  {
    hide EntriesOk;
    var r := NextOf(s, u, f);
    var i := s.stage[f].next;
    assert ThreadOk(s, u) && FiberOk(s, f) && FlagOk(s, f);
    assert FiberOk(s, i) && FlagOk(s, i) && i != f;
    assert r.stage == s.stage[f := r.stage[f]] && r.place == s.place[i := RunsOn(u)][f := TransitOn(u)];
    hide NextOf;
    WaitSwitchThreads(s, u, f);
    forall h: nat | h < |r.idle| ensures FiberOk(r, h) { assert FiberOk(s, h); }
    WaitSwitchOwned(s, u, f);
    SameEntries(s, r);
  }

  lemma WaitSwitchThreads(s: State, u: nat, f: nat)
    requires Inv(s) && u < |s.exec|
    requires s.exec[u] == Running(f) && f < |s.idle|
    requires s.stage[f].WaitSwitch?
    ensures forall v: nat | v < |s.exec| :: ThreadOk(NextOf(s, u, f), v)
  {
    hide EntriesOk;
    var r := NextOf(s, u, f);
    var i := s.stage[f].next;
    assert ThreadOk(s, u) && FiberOk(s, f) && FlagOk(s, f);
    assert FiberOk(s, i) && FlagOk(s, i) && i != f;
    assert r.stage == s.stage[f := r.stage[f]] && r.place == s.place[i := RunsOn(u)][f := TransitOn(u)];
    hide NextOf;
    forall v: nat | v < |r.exec| ensures ThreadOk(r, v) { assert ThreadOk(s, v); }
  }

  lemma WaitSwitchOwned(s: State, u: nat, f: nat)
    requires Inv(s) && u < |s.exec|
    requires s.exec[u] == Running(f) && f < |s.idle|
    requires s.stage[f].WaitSwitch?
    ensures forall h: nat | h < |s.idle| :: FlagOk(NextOf(s, u, f), h)
    ensures forall j: nat | j < |NextOf(s, u, f).regs| :: RegOk(NextOf(s, u, f), j)
  {
    hide EntriesOk;
    var r := NextOf(s, u, f);
    var i := s.stage[f].next;
    assert ThreadOk(s, u) && FiberOk(s, f) && FlagOk(s, f);
    assert FiberOk(s, i) && FlagOk(s, i) && i != f;
    assert r.stage == s.stage[f := r.stage[f]] && r.place == s.place[i := RunsOn(u)][f := TransitOn(u)];
    hide NextOf;
    forall h: nat | h < |r.idle| ensures FlagOk(r, h) { assert FlagOk(s, h); }
    forall j: nat | j < |r.regs| ensures RegOk(r, j) { assert RegOk(s, j); }
  }

  /** The store of a clean-up: the fiber left gets into the pool. */
  lemma StorePoolStep(s: State, u: nat, f: nat)
    requires Inv(s) && u < |s.exec| && s.exec[u] == Running(f) && f < |s.idle|
    requires s.stage[f].CleanStore? && s.stage[f].destination == Pool
    ensures Inv(NextOf(s, u, f))
  {
    hide EntriesOk;
    var r := NextOf(s, u, f);
    assert ThreadOk(s, u) && FiberOk(s, f) && FlagOk(s, f);
    var p := s.tls[u].previous;
    assert FiberOk(s, p) && FlagOk(s, p);
    StorePoolThreads(s, u, f);
    forall h: nat | h < |r.idle| ensures FiberOk(r, h) {
      assert FiberOk(s, h);
      if s.place[h].TransitOn? { assert ThreadOk(s, s.place[h].thread); }
    }
    StorePoolOwned(s, u, f);
    SameEntries(s, r);
  }

  lemma StorePoolThreads(s: State, u: nat, f: nat)
    requires Inv(s) && u < |s.exec| && s.exec[u] == Running(f) && f < |s.idle|
    requires s.stage[f].CleanStore? && s.stage[f].destination == Pool
    ensures forall v: nat | v < |s.exec| :: ThreadOk(NextOf(s, u, f), v)
  {
    hide EntriesOk;
    var r := NextOf(s, u, f);
    assert ThreadOk(s, u) && FiberOk(s, f) && FlagOk(s, f);
    var p := s.tls[u].previous;
    assert FiberOk(s, p) && FlagOk(s, p);
    forall v: nat | v < |r.exec| ensures ThreadOk(r, v) { assert ThreadOk(s, v); }
  }

  lemma StorePoolOwned(s: State, u: nat, f: nat)
    requires Inv(s) && u < |s.exec| && s.exec[u] == Running(f) && f < |s.idle|
    requires s.stage[f].CleanStore? && s.stage[f].destination == Pool
    ensures forall h: nat | h < |s.idle| :: FlagOk(NextOf(s, u, f), h)
    ensures forall j: nat | j < |NextOf(s, u, f).regs| :: RegOk(NextOf(s, u, f), j)
  {
    hide EntriesOk;
    var r := NextOf(s, u, f);
    assert ThreadOk(s, u) && FiberOk(s, f) && FlagOk(s, f);
    var p := s.tls[u].previous;
    assert FiberOk(s, p) && FlagOk(s, p);
    forall h: nat | h < |r.idle| ensures FlagOk(r, h) { assert FlagOk(s, h); }
    forall j: nat | j < |r.regs| ensures RegOk(r, j) { assert RegOk(s, j); }
  }

  /** The store of a clean-up: the fiber left counts as stored. */
  lemma StoreWaitingStep(s: State, u: nat, f: nat)
    requires Inv(s) && u < |s.exec| && s.exec[u] == Running(f) && f < |s.idle|
    requires s.stage[f].CleanStore? && s.stage[f].destination == Waiting
    ensures Inv(NextOf(s, u, f))
  {
    hide EntriesOk;
    var r := NextOf(s, u, f);
    assert ThreadOk(s, u) && FiberOk(s, f) && FlagOk(s, f);
    var p := s.tls[u].previous;
    assert FiberOk(s, p) && FlagOk(s, p);
    StoreWaitingThreads(s, u, f);
    forall h: nat | h < |r.idle| ensures FiberOk(r, h) {
      assert FiberOk(s, h);
      if s.place[h].TransitOn? { assert ThreadOk(s, s.place[h].thread); }
    }
    StoreWaitingOwned(s, u, f);
    SameEntries(s, r);
  }

  lemma StoreWaitingThreads(s: State, u: nat, f: nat)
    requires Inv(s) && u < |s.exec| && s.exec[u] == Running(f) && f < |s.idle|
    requires s.stage[f].CleanStore? && s.stage[f].destination == Waiting
    ensures forall v: nat | v < |s.exec| :: ThreadOk(NextOf(s, u, f), v)
  {
    hide EntriesOk;
    var r := NextOf(s, u, f);
    assert ThreadOk(s, u) && FiberOk(s, f) && FlagOk(s, f);
    var p := s.tls[u].previous;
    assert FiberOk(s, p) && FlagOk(s, p);
    forall v: nat | v < |r.exec| ensures ThreadOk(r, v) { assert ThreadOk(s, v); }
  }

  lemma StoreWaitingOwned(s: State, u: nat, f: nat)
    requires Inv(s) && u < |s.exec| && s.exec[u] == Running(f) && f < |s.idle|
    requires s.stage[f].CleanStore? && s.stage[f].destination == Waiting
    ensures forall h: nat | h < |s.idle| :: FlagOk(NextOf(s, u, f), h)
    ensures forall j: nat | j < |NextOf(s, u, f).regs| :: RegOk(NextOf(s, u, f), j)
  {
    hide EntriesOk;
    var r := NextOf(s, u, f);
    assert ThreadOk(s, u) && FiberOk(s, f) && FlagOk(s, f);
    var p := s.tls[u].previous;
    assert FiberOk(s, p) && FlagOk(s, p);
    forall h: nat | h < |r.idle| ensures FlagOk(r, h) { assert FlagOk(s, h); }
    forall j: nat | j < |r.regs| ensures RegOk(r, j) { assert RegOk(s, j); }
  }

  lemma ReadStep(s: State, u: nat, f: nat)
    requires Inv(s) && u < |s.exec| && s.exec[u] == Running(f) && f < |s.idle|
    requires s.stage[f].CleanRead?
    ensures Inv(NextOf(s, u, f))
  {
    hide EntriesOk;
    var r := NextOf(s, u, f);
    assert ThreadOk(s, u) && FiberOk(s, f) && FlagOk(s, f);
    forall v: nat | v < |r.exec| ensures ThreadOk(r, v) { assert ThreadOk(s, v); }
    forall h: nat | h < |r.idle| ensures FiberOk(r, h) { assert FiberOk(s, h); }
    forall h: nat | h < |r.idle| ensures FlagOk(r, h) { assert FlagOk(s, h); }
    forall j: nat | j < |r.regs| ensures RegOk(r, j) { assert RegOk(s, j); }
    SameEntries(s, r);
  }

  lemma ResetStep(s: State, u: nat, f: nat)
    requires Inv(s) && u < |s.exec| && s.exec[u] == Running(f) && f < |s.idle|
    requires s.stage[f].CleanReset?
    ensures Inv(NextOf(s, u, f))
  {
    hide EntriesOk;
    var r := NextOf(s, u, f);
    assert ThreadOk(s, u) && FiberOk(s, f) && FlagOk(s, f);
    forall v: nat | v < |r.exec| ensures ThreadOk(r, v) { assert ThreadOk(s, v); }
    forall h: nat | h < |r.idle| ensures FiberOk(r, h) { assert FiberOk(s, h); }
    forall h: nat | h < |r.idle| ensures FlagOk(r, h) { assert FlagOk(s, h); }
    forall j: nat | j < |r.regs| ensures RegOk(r, j) { assert RegOk(s, j); }
    SameEntries(s, r);
  }

  /** A fiber that has been switched to begins its clean-up, or has nothing to clean up and gets on. */
  lemma EnterStep(s: State, u: nat, f: nat, l: Stage)
    requires Inv(s) && u < |s.exec| && s.exec[u] == Running(f) && f < |s.idle| && Entering(s.stage[f])
    requires if s.tls[u].destination == Nowhere then Plain(l)
             else !(s.stage[f] == Fresh && s.isMain[f])
                  && l.CleanRead? && l.record == u && l.destination == s.tls[u].destination
    ensures Inv(SetStage(s, f, l))
  {
    hide EntriesOk;
    var r := SetStage(s, f, l);
    assert ThreadOk(s, u) && FiberOk(s, f) && FlagOk(s, f);
    forall v: nat | v < |r.exec| ensures ThreadOk(r, v) { assert ThreadOk(s, v); }
    forall h: nat | h < |r.idle| ensures FiberOk(r, h) { assert FiberOk(s, h); }
    forall h: nat | h < |r.idle| ensures FlagOk(r, h) { assert FlagOk(s, h); }
    forall j: nat | j < |r.regs| ensures RegOk(r, j) { assert RegOk(s, j); }
    SameEntries(s, r);
  }

  lemma BackStep(s: State, u: nat, f: nat)
    requires Inv(s) && u < |s.exec|
    requires s.exec[u] == Running(f) && f < |s.idle|
    requires Plain(s.stage[f])
    ensures Inv(SwitchBack(s, u, f))
  {
    hide EntriesOk;
    var r := SwitchBack(s, u, f);
    assert ThreadOk(s, u) && FiberOk(s, f) && FlagOk(s, f);
    forall v: nat | v < |r.exec| ensures ThreadOk(r, v) { assert ThreadOk(s, v); }
    forall h: nat | h < |r.idle| ensures FiberOk(r, h) { assert FiberOk(s, h); }
    forall h: nat | h < |r.idle| ensures FlagOk(r, h) { assert FlagOk(s, h); }
    forall j: nat | j < |r.regs| ensures RegOk(r, j) { assert RegOk(s, j); }
    SameEntries(s, r);
  }

  lemma RegisterStep(s: State, u: nat, f: nat)
    requires Inv(s) && u < |s.exec|
    requires s.exec[u] == Running(f) && f < |s.idle| && s.stage[f].HaveFlag?
    ensures Inv(Step(s, u, FiberMachine.Register))
  {
    var r := Step(s, u, FiberMachine.Register);
    assert ThreadOk(s, u) && FiberOk(s, f) && FlagOk(s, f);
    forall v: nat | v < |r.exec| ensures ThreadOk(r, v) { assert ThreadOk(s, v); }
    forall h: nat | h < |r.idle| ensures FiberOk(r, h) { assert FiberOk(s, h); }
    forall h: nat | h < |r.idle| ensures FlagOk(r, h) { assert FlagOk(s, h); }
    forall j: nat | j < |r.regs| ensures RegOk(r, j) { if j < |s.regs| { assert RegOk(s, j); } }
    KeepEntries(s, r);
  }

  lemma CancelStep(s: State, u: nat, f: nat)
    requires Inv(s) && u < |s.exec|
    requires s.exec[u] == Running(f) && f < |s.idle| && s.stage[f].Registered? && s.stage[f].reg < |s.regs|
    requires s.regs[s.stage[f].reg].status == Open
    ensures Inv(FiberStep(s, u, f, Cancel))
  {
    hide EntriesOk;
    var r := FiberStep(s, u, f, Cancel);
    assert ThreadOk(s, u) && FiberOk(s, f) && FlagOk(s, f);
    forall v: nat | v < |r.exec| ensures ThreadOk(r, v) { assert ThreadOk(s, v); }
    forall h: nat | h < |r.idle| ensures FiberOk(r, h) { assert FiberOk(s, h); }
    forall h: nat | h < |r.idle| ensures FlagOk(r, h) { assert FlagOk(s, h); }
    forall j: nat | j < |r.regs| ensures RegOk(r, j) { assert RegOk(s, j); }
    CancelEntries(s, u, f);
  }

  lemma CancelEntries(s: State, u: nat, f: nat)
    requires Inv(s) && u < |s.exec|
    requires s.exec[u] == Running(f) && f < |s.idle| && s.stage[f].Registered? && s.stage[f].reg < |s.regs|
    requires s.regs[s.stage[f].reg].status == Open
    ensures EntriesOk(FiberStep(s, u, f, Cancel))
  {
    var r := FiberStep(s, u, f, Cancel);
    assert FlagOk(s, f);
    forall v: nat, k: nat | v < |s.exec| && k < |s.tls[v].ready| ensures EntryOk(r, v, k) {
      assert EntryOk(s, v, k);
      assert FlagOk(s, s.tls[v].ready[k].fiber);
    }
    KeepEntries(s, r);
  }

  /** Ready lists as they were, each entry still good. */
  lemma KeepEntries(s: State, r: State)
    requires Shaped(s) && Shaped(r) && EntriesOk(s) && |r.exec| == |s.exec|
    requires forall v: nat | v < |s.exec| :: r.tls[v].ready == s.tls[v].ready
    requires forall v: nat, k: nat | v < |s.exec| && k < |s.tls[v].ready| && EntryOk(s, v, k) :: EntryOk(r, v, k)
    ensures EntriesOk(r)
  {
    forall v: nat, k: nat | v < |r.exec| && k < |r.tls[v].ready| ensures EntryOk(r, v, k) { assert EntryOk(s, v, k); }
    forall v: nat, k: nat, w: nat, l: nat |
      v < |r.exec| && k < |r.tls[v].ready| && w < |r.exec| && l < |r.tls[w].ready|
      ensures Distinct(r, v, k, w, l) { assert Distinct(s, v, k, w, l); }
  }

  lemma WakeStep(s: State, u: nat, f: nat, j: nat)
    requires Inv(s) && u < |s.exec|
    requires s.exec[u] == Running(f) && f < |s.idle| && s.stage[f] == Job && j < |s.regs| && s.regs[j].status == Open
    ensures Inv(Step(s, u, Wake(j)))
  {
    hide EntriesOk;
    var r := Step(s, u, Wake(j));
    assert ThreadOk(s, u) && FiberOk(s, f) && RegOk(s, j) && FlagOk(s, s.regs[j].fiber);
    forall v: nat | v < |r.exec| ensures ThreadOk(r, v) { assert ThreadOk(s, v); }
    forall h: nat | h < |r.idle| ensures FiberOk(r, h) { assert FiberOk(s, h); }
    forall h: nat | h < |r.idle| ensures FlagOk(r, h) { assert FlagOk(s, h); }
    forall i: nat | i < |r.regs| ensures RegOk(r, i) { assert RegOk(s, i); }
    WakeEntries(s, u, f, j);
  }

  lemma WakeEntries(s: State, u: nat, f: nat, j: nat)
    requires Inv(s) && u < |s.exec|
    requires s.exec[u] == Running(f) && f < |s.idle| && s.stage[f] == Job && j < |s.regs| && s.regs[j].status == Open
    ensures EntriesOk(Step(s, u, Wake(j)))
  {
    assert RegOk(s, j) && FlagOk(s, s.regs[j].fiber) && FiberOk(s, s.regs[j].fiber);
    var r := Step(s, u, Wake(j));
    forall v: nat, k: nat | v < |r.exec| && k < |r.tls[v].ready| ensures EntryOk(r, v, k) {
      if k < |s.tls[v].ready| { assert EntryOk(s, v, k); }
    }
    forall v: nat, k: nat, w: nat, l: nat |
      v < |r.exec| && k < |r.tls[v].ready| && w < |r.exec| && l < |r.tls[w].ready|
      ensures Distinct(r, v, k, w, l)
    {
      if k < |s.tls[v].ready| { assert EntryOk(s, v, k); }
      if l < |s.tls[w].ready| { assert EntryOk(s, w, l); }
      if k < |s.tls[v].ready| && l < |s.tls[w].ready| { assert Distinct(s, v, k, w, l); }
    }
  }

  /** Resuming a ready fiber: entry k of thread u, whose flag is set. */
  lemma TakeReadyStep(s: State, u: nat, f: nat, k: nat)
    requires Inv(s) && u < |s.exec|
    requires s.exec[u] == Running(f) && f < |s.idle| && s.stage[f] == Scanning(k) && k < |s.tls[u].ready|
    requires var g := s.tls[u].ready[k].flag; g < |s.flags| && s.flags[g].live && s.flags[g].value
    ensures Inv(CheckReady(s, u, f, k))
  {
    var r := CheckReady(s, u, f, k);
    assert ThreadOk(s, u) && FiberOk(s, f) && EntryOk(s, u, k);
    var e := s.tls[u].ready[k];
    assert FlagOk(s, e.fiber) && FiberOk(s, e.fiber);
    assert s.place[e.fiber] == Parked && e.fiber != f;
    TakeReadyThreads(s, u, f, k);
    forall h: nat | h < |r.idle| ensures FiberOk(r, h) { assert FiberOk(s, h); }
    forall h: nat | h < |r.idle| ensures FlagOk(r, h) { assert FlagOk(s, h); }
    forall j: nat | j < |r.regs| ensures RegOk(r, j) { assert RegOk(s, j); }
    TakeReadyEntries(s, u, f, k);
  }

  lemma TakeReadyThreads(s: State, u: nat, f: nat, k: nat)
    requires Inv(s) && u < |s.exec|
    requires s.exec[u] == Running(f) && f < |s.idle| && s.stage[f] == Scanning(k) && k < |s.tls[u].ready|
    requires var g := s.tls[u].ready[k].flag; g < |s.flags| && s.flags[g].live && s.flags[g].value
    ensures forall v: nat | v < |s.exec| :: ThreadOk(CheckReady(s, u, f, k), v)
  {
    var r := CheckReady(s, u, f, k);
    assert ThreadOk(s, u) && FiberOk(s, f) && EntryOk(s, u, k);
    var e := s.tls[u].ready[k];
    assert FlagOk(s, e.fiber) && FiberOk(s, e.fiber);
    assert s.place[e.fiber] == Parked && e.fiber != f;
    forall v: nat | v < |r.exec| ensures ThreadOk(r, v) { assert ThreadOk(s, v); }
  }

  lemma TakeReadyEntries(s: State, u: nat, f: nat, k: nat)
    requires Inv(s) && u < |s.exec|
    requires s.exec[u] == Running(f) && f < |s.idle| && s.stage[f] == Scanning(k) && k < |s.tls[u].ready|
    requires var g := s.tls[u].ready[k].flag; g < |s.flags| && s.flags[g].live && s.flags[g].value
    ensures EntriesOk(CheckReady(s, u, f, k))
  {
    var r := CheckReady(s, u, f, k);
    assert EntryOk(s, u, k);
    forall v: nat, j: nat | v < |r.exec| && j < |r.tls[v].ready| ensures EntryOk(r, v, j) {
      var i := if v == u && j >= k then j + 1 else j;
      assert EntryOk(s, v, i) && Distinct(s, v, i, u, k);
      assert FlagOk(s, s.tls[v].ready[i].fiber) && FlagOk(s, s.tls[u].ready[k].fiber);
    }
    forall v: nat, j: nat, w: nat, l: nat |
      v < |r.exec| && j < |r.tls[v].ready| && w < |r.exec| && l < |r.tls[w].ready|
      ensures Distinct(r, v, j, w, l)
    {
      var i := if v == u && j >= k then j + 1 else j;
      var m := if w == u && l >= k then l + 1 else l;
      assert Distinct(s, v, i, w, m);
    }
  }

  /** Cleaning up record c after the switch to a pooled fiber on thread u does what is due: c is u, or neither
      record has anything to clean up. */
  ghost predicate RightRecord(s: State, u: nat, c: nat)
    requires Shaped(s) && u < |s.exec| && c < |s.exec|
  {
    c == u || (s.tls[u].destination == Nowhere && s.tls[c].destination == Nowhere)
  }

  /** The step does not begin the clean-up of a wrong cached record. */
  ghost predicate RecordOk(s: State, u: nat, a: Action)
    requires Shaped(s)
  {
    u < |s.exec| && s.exec[u].Running? && s.exec[u].fiber < |s.stage| && a == Next ==>
      var l := s.stage[s.exec[u].fiber];
      l.PoolResume? && l.cached < |s.exec| ==> RightRecord(s, u, l.cached)
  }

  /** The step cancels the registration of another fiber. */
  predicate Steals(s: State, u: nat, a: Action)
    requires Shaped(s)
  {
    u < |s.exec| && s.exec[u].Running? && s.exec[u].fiber < |s.stage| && a.Steal? &&
    var l := s.stage[s.exec[u].fiber];
    l.Registered? && MaySteal(s, l.reg, a.reg)
  }

  /** The step neither cleans up a wrong cached record nor cancels the registration of another fiber. */
  ghost predicate StepOk(s: State, u: nat, a: Action)
    requires Shaped(s)
  {
    RecordOk(s, u, a) && !Steals(s, u, a)
  }

  lemma TheftBreaks(s: State, u: nat, a: Action)
    requires Inv(s) && Steals(s, u, a)
    ensures !Inv(Step(s, u, a))
  {
    var f, r := s.exec[u].fiber, Step(s, u, a);
    var h := s.regs[a.reg].fiber;
    assert RegOk(s, a.reg) && FlagOk(s, h) && FlagOk(s, f);
    assert h != f && r.stage[h] == s.stage[h] && r.regs[a.reg].status == Cancelled;
    assert !FlagOk(r, h);
  }

  lemma WrongRecordBreaks(s: State, u: nat, f: nat, c: nat)
    requires Inv(s) && u < |s.exec| && c < |s.exec|
    requires s.exec[u] == Running(f) && f < |s.idle| && s.stage[f] == PoolResume(c) && !RightRecord(s, u, c)
    ensures !Inv(BeginCleanup(s, f, c, ToTail))
  {
    assert !ThreadOk(BeginCleanup(s, f, c, ToTail), u);
  }

  lemma NextKeepsInv(s: State, u: nat, f: nat)
    requires Inv(s) && u < |s.exec| && s.exec[u] == Running(f) && RecordOk(s, u, Next)
    ensures f < |s.idle| && Inv(NextOf(s, u, f))
  {
    assert ThreadOk(s, u) && FiberOk(s, f);
    match s.stage[f] {
      case Fresh =>
        if s.isMain[f] { EnterStep(s, u, f, Job); } else { EnterStep(s, u, f, NextOf(s, u, f).stage[f]); }
      case Loop => if !s.tls[u].isIO { PlainStep(s, u, f, Scanning(0)); }
      case Scanning(k) =>
        if k >= |s.tls[u].ready| {
          PlainStep(s, u, f, Tail);
        } else {
          assert EntryOk(s, u, k);
          if s.flags[s.tls[u].ready[k].flag].value {
            TakeReadyStep(s, u, f, k);
          } else {
            PlainStep(s, u, f, Scanning(k + 1));
          }
        }
      case PoolSwitch(_) => PoolSwitchStep(s, u, f);
      case PoolResume(c) =>
        assert FlagOk(s, f);
        EnterStep(s, u, f, NextOf(s, u, f).stage[f]);
      case Declined(_, _) => LeavingStep(s, u, f);
      case WaitSwitch(_, _, _) => WaitSwitchStep(s, u, f);
      case WaitResume(_, _) => EnterStep(s, u, f, NextOf(s, u, f).stage[f]);
      case CleanRead(_, _, _) => ReadStep(s, u, f);
      case CleanStore(_, to, _, _, _) => if to == Pool { StorePoolStep(s, u, f); } else { StoreWaitingStep(s, u, f); }
      case CleanReset(_, _) => ResetStep(s, u, f);
      case _ =>
    }
  }

  lemma FiberStepKeepsInv(s: State, u: nat, f: nat, a: Action)
    requires Inv(s) && u < |s.exec| && s.exec[u] == Running(f) && f < |s.idle| && StepOk(s, u, a)
    ensures Inv(FiberStep(s, u, f, a))
  {
    match (a, s.stage[f]) {
      case (Next, _) => NextKeepsInv(s, u, f);
      case (Claim(i), Leaving(_, _)) => if i < |s.idle| && s.idle[i] { WaitClaimStep(s, u, f, i); }
      case (GetJob, Loop) => PlainStep(s, u, f, Job);
      case (GetJob, Tail) => PlainStep(s, u, f, Job);
      case (NoJob, Tail) => PlainStep(s, u, f, Loop);
      case (Finish, Job) => if s.isMain[f] { BackStep(s, u, f); } else { PlainStep(s, u, f, Loop); }
      case (Exit, Loop) => BackStep(s, u, f);
      case (Wait, Job) => AllocateStep(s, u, f);
      case (Register, HaveFlag(_)) => RegisterStep(s, u, f);
      case (Full, HaveFlag(_)) => FullStep(s, u, f);
      case (Cancel, Registered(_, r)) => if r < |s.regs| && s.regs[r].status == Open { CancelStep(s, u, f); }
      case (Decline, Registered(_, _)) => DeclineStep(s, u, f);
      case (Wake(r), Job) => if r < |s.regs| && s.regs[r].status == Open { WakeStep(s, u, f, r); }
      case _ =>
    }
  }

  /** Exactly the steps that neither begin to clean up a wrong cached record nor cancel another's registration keep
      the invariant. */
  lemma StepKeepsInvIff(s: State, u: nat, a: Action)
    requires Inv(s)
    ensures Inv(Step(s, u, a)) <==> StepOk(s, u, a)
  {
    if !RecordOk(s, u, a) {
      var f := s.exec[u].fiber;
      assert ThreadOk(s, u);
      WrongRecordBreaks(s, u, f, s.stage[f].cached);
    } else if Steals(s, u, a) {
      TheftBreaks(s, u, a);
    } else if u < |s.exec| {
      match s.exec[u] {
        case BaseStart => if a.Claim? && a.fiber < |s.idle| && s.idle[a.fiber] { BaseClaimStep(s, u, a.fiber); }
        case BaseHolding(i) => if a == Next { BaseSwitchStep(s, u, i); }
        case Running(f) =>
          assert ThreadOk(s, u);
          FiberStepKeepsInv(s, u, f, a);
        case Home(_) =>
      }
    }
  }

  /** No step of the run cleans up a wrong cached record or cancels another's registration. */
  ghost predicate StepsOk(s: State, sched: Schedule)
    requires Shaped(s)
    decreases |sched|
  {
    sched == [] ||
    var front := sched[..|sched| - 1];
    StepsOk(s, front) && StepOk(Run(s, front), sched[|sched| - 1].0, sched[|sched| - 1].1)
  }

  lemma {:induction false} RunKeepsInv(s: State, sched: Schedule)
    requires Inv(s) && StepsOk(s, sched)
    ensures Inv(Run(s, sched))
    decreases |sched|
  {
    assert Shaped(s);
    hide Step, Inv;
    if sched != [] {
      RunKeepsInv(s, sched[..|sched| - 1]);
      StepKeepsInvIff(Run(s, sched[..|sched| - 1]), sched[|sched| - 1].0, sched[|sched| - 1].1);
    }
  }
}
