/** The global invariant of the unbounded ring buffer and its preservation by every step. */
module MpmcInvariant {
  import opened Arith
  import opened Mpmc

  /** Thread t holds enqueue ticket p: claimed, not yet published. */
  ghost predicate Writing<T>(q: Queue<T>, t: nat, p: nat) {
    t < |q.threads| &&
    match q.threads[t]
    case EWrite(_, pos, ticket) => ticket == p
    case EPublish(_, pos, ticket) => ticket == p
    case _ => false
  }

  /** Thread t holds dequeue ticket p: claimed, not yet released. */
  ghost predicate Reading<T>(q: Queue<T>, t: nat, p: nat) {
    t < |q.threads| &&
    match q.threads[t]
    case DRead(pos, ticket) => ticket == p
    case DRelease(pos, ticket, _) => ticket == p
    case _ => false
  }

  /** The cell waits for the writer of position p. */
  ghost predicate Waiting<T>(q: Queue<T>, i: nat, p: nat)
    requires Shaped(q) && i <= q.mask
  {
    && q.seqs[i] == p && Index(p, q.mask) == i
    && q.deq <= p < q.deq + q.mask + 1
    && (p < |q.puts| ==> Writing(q, q.puts[p].who, p))
  }

  /** The cell holds the item of position p. */
  ghost predicate Holding<T>(q: Queue<T>, i: nat, p: nat)
    requires Shaped(q) && i <= q.mask
  {
    && q.seqs[i] == p + 1 && Index(p, q.mask) == i
    && p < q.enq <= p + q.mask + 1
    && p < |q.puts| && q.cells[i] == Some(q.puts[p].value)
    && (p < |q.takers| ==> Reading(q, q.takers[p], p))
  }

  ghost predicate CellOk<T>(q: Queue<T>, i: nat)
    requires Shaped(q) && i <= q.mask
  {
    Waiting(q, i, q.seqs[i]) || (q.seqs[i] > 0 && Holding(q, i, q.seqs[i] - 1))
  }

  ghost predicate LocalOk<T>(q: Queue<T>, t: nat)
    requires Shaped(q) && t < |q.threads|
  {
    match q.threads[t]
    case ETest(_, pos) => pos <= q.enq
    case EDecide(_, pos, sq) => pos <= q.enq && pos <= sq + q.mask + 1 && sq <= q.seqs[Index(pos, q.mask)]
    case EWrite(v, pos, p) =>
      pos == p < |q.puts| && q.puts[p] == Put(v, t) && q.seqs[Index(p, q.mask)] == p
    case EPublish(v, pos, p) =>
      pos == p < |q.puts| && q.puts[p] == Put(v, t) && q.seqs[Index(p, q.mask)] == p
      && q.cells[Index(p, q.mask)] == Some(v)
    case DTest(pos) => pos <= q.deq
    case DDecide(pos, sq) => pos <= q.deq && pos <= sq + q.mask && sq <= q.seqs[Index(pos, q.mask)]
    case DRead(pos, p) =>
      pos == p < |q.takers| && q.takers[p] == t && q.seqs[Index(p, q.mask)] == p + 1 && p !in q.got
    case DRelease(pos, p, item) =>
      pos == p < |q.takers| && q.takers[p] == t && q.seqs[Index(p, q.mask)] == p + 1
      && p in q.got && q.got[p] == item
    case _ => true
  }

  /** What ticket p's taker has read, or that it is still to read. */
  ghost predicate TakeOk<T>(q: Queue<T>, p: nat)
    requires p < |q.takers|
  {
    if p in q.got then p < |q.puts| && q.got[p] == Some(q.puts[p].value)
    else Reading(q, q.takers[p], p) && q.threads[q.takers[p]].DRead?
  }

  ghost predicate Inv<T>(q: Queue<T>, k: nat) {
    && Shaped(q) && q.width == Unbounded && k >= 1 && q.mask == Pow2(k) - 1
    && q.enq == |q.puts| && q.deq == |q.takers|
    && q.deq <= q.enq <= q.deq + q.mask + 1
    && (forall i: nat | i <= q.mask :: CellOk(q, i))
    && (forall t: nat | t < |q.threads| :: LocalOk(q, t))
    && (forall p: nat | p < |q.takers| :: TakeOk(q, p))
    && (forall p | p in q.got :: p < |q.takers|)
  }

  /** The sequence of the cell of a claimed position has reached that position. */
  lemma ClaimedCell<T>(q: Queue<T>, k: nat, pos: nat)
    requires Inv(q, k) && pos < q.enq
    ensures q.seqs[Index(pos, q.mask)] >= pos
    ensures pos < q.deq ==> q.seqs[Index(pos, q.mask)] > pos
  {
    var i := Index(pos, q.mask);
    assert CellOk(q, i);
    var s := q.seqs[i];
    if Waiting(q, i, s) {
      if pos >= q.deq { IndexInjective(s, pos, k); }
    } else if s - 1 < pos {
      IndexInjective(s - 1, pos, k);
    }
  }

  /** The three possible readings of the cell at the enqueue position. */
  lemma EnqueueCell<T>(q: Queue<T>, k: nat)
    requires Inv(q, k)
    ensures var i := Index(q.enq, q.mask);
            || (q.seqs[i] == q.enq && Waiting(q, i, q.enq) && q.enq < q.deq + q.mask + 1)
            || (q.enq > q.mask && q.seqs[i] == q.enq - q.mask - 1 && Waiting(q, i, q.enq - q.mask - 1)
                && q.enq == q.deq + q.mask + 1)
            || (q.enq > q.mask && q.seqs[i] == q.enq - q.mask && Holding(q, i, q.enq - q.mask - 1))
  {
    var i := Index(q.enq, q.mask);
    assert CellOk(q, i);
    var s := q.seqs[i];
    if Waiting(q, i, s) {
      if q.enq < q.deq + q.mask + 1 {
        IndexInjective(s, q.enq, k);
      } else {
        IndexNextLap(q.deq, k);
        IndexInjective(s, q.deq, k);
      }
    } else {
      var p := s - 1;
      IndexNextLap(p, k);
      IndexInjective(p + Pow2(k), q.enq, k);
    }
  }

  /** The three possible readings of the cell at the dequeue position. */
  lemma DequeueCell<T>(q: Queue<T>, k: nat)
    requires Inv(q, k)
    ensures var i := Index(q.deq, q.mask);
            || (q.seqs[i] == q.deq && Waiting(q, i, q.deq))
            || (q.seqs[i] == q.deq + 1 && Holding(q, i, q.deq) && q.deq < q.enq)
            || (q.deq > q.mask && q.deq == q.enq && q.seqs[i] == q.deq - q.mask && Holding(q, i, q.deq - q.mask - 1))
  {
    var i := Index(q.deq, q.mask);
    assert CellOk(q, i);
    var s := q.seqs[i];
    if Waiting(q, i, s) {
      IndexInjective(s, q.deq, k);
    } else if q.deq < q.enq {
      IndexInjective(s - 1, q.deq, k);
    } else {
      IndexNextLap(s - 1, k);
      IndexInjective(s - 1 + Pow2(k), q.deq, k);
    }
  }

  /** The cell holds the item of position p, or waits for its writer. */
  ghost predicate ReadsAs<T>(q: Queue<T>, i: nat, p: nat, holds: bool)
    requires Shaped(q) && i <= q.mask
  {
    if holds then Holding(q, i, p) else Waiting(q, i, p)
  }

  /** Every cell reads exactly one way, and whether its sequence belongs to the cell or to the next one
      tells which: the capacity is at least 2. */
  lemma CellReadsOneWay<T>(q: Queue<T>, k: nat, i: nat)
    requires Inv(q, k) && i <= q.mask
    ensures exists p: nat, holds: bool ::
              ReadsAs(q, i, p, holds) && forall r: nat, h: bool :: ReadsAs(q, i, r, h) ==> r == p && h == holds
    ensures Waiting(q, i, q.seqs[i]) <==> Index(q.seqs[i], q.mask) == i
  {
    var s := q.seqs[i];
    assert CellOk(q, i);
    if s > 0 { IndexSuccDiffers(s - 1, k); }
    if Waiting(q, i, s) {
      assert ReadsAs(q, i, s, false);
    } else {
      assert ReadsAs(q, i, s - 1, true);
    }
  }

  /** Thread t may touch the data of the cell of its ticket: between claim and publish or release. */
  ghost predicate Owns<T>(q: Queue<T>, t: nat, p: nat) {
    Writing(q, t, p) || Reading(q, t, p)
  }

  /** No cell is ever owned by two threads. */
  lemma OneOwnerPerCell<T>(q: Queue<T>, k: nat, t: nat, p: nat, u: nat, r: nat)
    requires Inv(q, k) && Owns(q, t, p) && Owns(q, u, r)
    requires Index(p, q.mask) == Index(r, q.mask)
    ensures t == u && p == r
  {
    assert LocalOk(q, t) && LocalOk(q, u);
    IndexSuccDiffers(p, k);
    IndexSuccDiffers(r, k);
  }

  lemma AloneOnCell<T>(q: Queue<T>, k: nat, t: nat, p: nat, u: nat)
    requires Inv(q, k) && Owns(q, t, p) && u < |q.threads| && u != t
    ensures var l := q.threads[u];
            l.EWrite? || l.EPublish? || l.DRead? || l.DRelease? ==> Index(l.ticket, q.mask) != Index(p, q.mask)
  {
    var l := q.threads[u];
    if l.EWrite? || l.EPublish? || l.DRead? || l.DRelease? {
      assert Owns(q, u, l.ticket);
      if Index(l.ticket, q.mask) == Index(p, q.mask) {
        OneOwnerPerCell(q, k, t, p, u, l.ticket);
      }
    }
  }

  lemma InitInv<T>(k: nat, threads: nat)
    requires k >= 1
    ensures Inv(Init<T>(Unbounded, Pow2(k) - 1, threads), k)
  {
    var q := Init<T>(Unbounded, Pow2(k) - 1, threads);
    forall i: nat | i <= q.mask ensures CellOk(q, i) {
      MaskIsMod(i, k);
      DivUnique(i, Pow2(k), 0, i);
      assert q.seqs[i] == i;
      assert Waiting(q, i, i);
    }
  }

  /** Steps that touch neither the counters nor the cells. */
  lemma LocalStepKeepsInv<T>(q: Queue<T>, k: nat, t: nat, l: Local<T>)
    requires Inv(q, k) && t < |q.threads|
    requires !q.threads[t].EWrite? && !q.threads[t].EPublish? && !q.threads[t].DRead? && !q.threads[t].DRelease?
    requires LocalOk(Set(q, t, l), t)
    ensures Inv(Set(q, t, l), k)
  {
    hide And, Pow2;
    var r := Set(q, t, l);
    forall i: nat | i <= r.mask ensures CellOk(r, i) {
      assert CellOk(q, i);
    }
    forall u: nat | u < |r.threads| ensures LocalOk(r, u) {
      if u != t { assert LocalOk(q, u); }
    }
    forall p: nat | p < |r.takers| ensures TakeOk(r, p) {
      assert TakeOk(q, p);
    }
  }

  lemma EnqueueClaimKeepsCell<T>(q: Queue<T>, k: nat, t: nat, value: T, lag: nat, i: nat)
    requires Inv(q, k) && t < |q.threads| && q.threads[t] == EDecide(value, q.enq, q.enq) && i <= q.mask
    ensures CellOk(EnqDecide(q, t, value, q.enq, q.enq, lag, false), i)
  {
    hide And, Pow2;
    var r := EnqDecide(q, t, value, q.enq, q.enq, lag, false);
    EnqueueCell(q, k);
    assert LocalOk(q, t);
    assert CellOk(q, i);
    var s := q.seqs[i];
    if Waiting(q, i, s) {
      assert Waiting(r, i, s);
    } else {
      IndexNextLap(s - 1, k);
      assert q.enq != s + q.mask;
      assert Holding(r, i, s - 1);
    }
  }

  lemma EnqueueClaimKeepsInv<T>(q: Queue<T>, k: nat, t: nat, value: T, lag: nat)
    requires Inv(q, k) && t < |q.threads| && q.threads[t] == EDecide(value, q.enq, q.enq)
    ensures Inv(EnqDecide(q, t, value, q.enq, q.enq, lag, false), k)
  {
    hide And, Pow2;
    var r := EnqDecide(q, t, value, q.enq, q.enq, lag, false);
    assert LocalOk(q, t);
    assert q.seqs[Index(q.enq, q.mask)] == q.enq < q.deq + q.mask + 1 by { EnqueueCell(q, k); }
    forall i: nat | i <= r.mask ensures CellOk(r, i) {
      EnqueueClaimKeepsCell(q, k, t, value, lag, i);
    }
    forall u: nat | u < |r.threads| ensures LocalOk(r, u) {
      if u != t { assert LocalOk(q, u); }
    }
    forall p: nat | p < |r.takers| ensures TakeOk(r, p) {
      assert TakeOk(q, p);
    }
  }

  lemma DequeueClaimKeepsCell<T>(q: Queue<T>, k: nat, t: nat, lag: nat, i: nat)
    requires Inv(q, k) && t < |q.threads| && q.threads[t] == DDecide(q.deq, q.deq + 1) && i <= q.mask
    ensures CellOk(DeqDecide(q, t, q.deq, q.deq + 1, lag, false), i)
  {
    hide And, Pow2;
    var r := DeqDecide(q, t, q.deq, q.deq + 1, lag, false);
    assert LocalOk(q, t);
    DequeueCell(q, k);
    assert CellOk(q, i);
    var s := q.seqs[i];
    if Waiting(q, i, s) {
      assert Waiting(r, i, s);
    } else {
      assert Holding(r, i, s - 1);
    }
  }

  lemma DequeueClaimKeepsInv<T>(q: Queue<T>, k: nat, t: nat, lag: nat)
    requires Inv(q, k) && t < |q.threads| && q.threads[t] == DDecide(q.deq, q.deq + 1)
    ensures Inv(DeqDecide(q, t, q.deq, q.deq + 1, lag, false), k)
  {
    hide And, Pow2;
    var r := DeqDecide(q, t, q.deq, q.deq + 1, lag, false);
    assert LocalOk(q, t);
    assert q.seqs[Index(q.deq, q.mask)] == q.deq + 1 && q.deq < q.enq by { DequeueCell(q, k); }
    forall i: nat | i <= r.mask ensures CellOk(r, i) {
      DequeueClaimKeepsCell(q, k, t, lag, i);
    }
    forall u: nat | u < |r.threads| ensures LocalOk(r, u) {
      if u != t { assert LocalOk(q, u); }
    }
    forall p: nat | p < |r.takers| ensures TakeOk(r, p) {
      if p < |q.takers| { assert TakeOk(q, p); }
    }
  }

  lemma WriteKeepsCell<T>(q: Queue<T>, k: nat, t: nat, i: nat)
    requires Inv(q, k) && t < |q.threads| && q.threads[t].EWrite? && i <= q.mask
    ensures CellOk(Step(q, t, Access), i)
  {
    hide And, Pow2;
    var r := Step(q, t, Access);
    assert LocalOk(q, t);
    assert CellOk(q, i);
    var s := q.seqs[i];
    if Waiting(q, i, s) {
      assert Waiting(r, i, s);
    } else {
      IndexSuccDiffers(s - 1, k);
      assert Holding(r, i, s - 1);
    }
  }

  lemma WriteKeepsLocal<T>(q: Queue<T>, k: nat, t: nat, u: nat)
    requires Inv(q, k) && t < |q.threads| && q.threads[t].EWrite? && u < |q.threads|
    ensures LocalOk(Step(q, t, Access), u)
  {
    hide And, Pow2;
    assert LocalOk(q, t) && LocalOk(q, u);
    if u != t {
      AloneOnCell(q, k, t, q.threads[t].ticket, u);
    }
  }

  lemma WriteKeepsInv<T>(q: Queue<T>, k: nat, t: nat)
    requires Inv(q, k) && t < |q.threads| && q.threads[t].EWrite?
    ensures Inv(Step(q, t, Access), k)
  {
    hide And, Pow2;
    var r := Step(q, t, Access);
    forall i: nat | i <= r.mask ensures CellOk(r, i) {
      WriteKeepsCell(q, k, t, i);
    }
    forall u: nat | u < |r.threads| ensures LocalOk(r, u) {
      WriteKeepsLocal(q, k, t, u);
    }
    forall j: nat | j < |r.takers| ensures TakeOk(r, j) {
      assert TakeOk(q, j);
    }
  }

  lemma ReadKeepsCell<T>(q: Queue<T>, k: nat, t: nat, i: nat)
    requires Inv(q, k) && t < |q.threads| && q.threads[t].DRead? && i <= q.mask
    ensures CellOk(Step(q, t, Access), i)
  {
    hide And, Pow2;
    var r := Step(q, t, Access);
    assert LocalOk(q, t);
    assert CellOk(q, i);
    var s := q.seqs[i];
    if Waiting(q, i, s) {
      assert Waiting(r, i, s);
    } else {
      assert Holding(r, i, s - 1);
    }
  }

  /** A claimed dequeue ticket finds its item in the cell. */
  lemma ReadsHolding<T>(q: Queue<T>, k: nat, t: nat, p: nat)
    requires Inv(q, k) && Reading(q, t, p)
    ensures Holding(q, Index(p, q.mask), p)
  {
    assert LocalOk(q, t);
    assert CellOk(q, Index(p, q.mask));
    IndexSuccDiffers(p, k);
  }

  lemma ReadKeepsInv<T>(q: Queue<T>, k: nat, t: nat)
    requires Inv(q, k) && t < |q.threads| && q.threads[t].DRead?
    ensures Inv(Step(q, t, Access), k)
  {
    hide And, Pow2;
    var r := Step(q, t, Access);
    var p := q.threads[t].ticket;
    assert LocalOk(q, t);
    ReadsHolding(q, k, t, p);
    forall i: nat | i <= r.mask ensures CellOk(r, i) {
      ReadKeepsCell(q, k, t, i);
    }
    forall u: nat | u < |r.threads| ensures LocalOk(r, u) {
      assert LocalOk(q, u);
    }
    forall j: nat | j < |r.takers| ensures TakeOk(r, j) {
      assert TakeOk(q, j);
    }
  }

  lemma PublishKeepsCell<T>(q: Queue<T>, k: nat, t: nat, i: nat)
    requires Inv(q, k) && t < |q.threads| && q.threads[t].EPublish? && i <= q.mask
    ensures CellOk(Step(q, t, Release), i)
  {
    hide And, Pow2;
    var r := Step(q, t, Release);
    var p := q.threads[t].ticket;
    assert LocalOk(q, t);
    assert CellOk(q, i);
    if i == Index(p, q.mask) {
      if p > 0 { IndexSuccDiffers(p - 1, k); }
      assert Waiting(q, i, p);
      assert Holding(r, i, p);
    } else {
      var s := q.seqs[i];
      if Waiting(q, i, s) {
        assert Waiting(r, i, s);
      } else {
        assert Holding(r, i, s - 1);
      }
    }
  }

  lemma PublishKeepsInv<T>(q: Queue<T>, k: nat, t: nat)
    requires Inv(q, k) && t < |q.threads| && q.threads[t].EPublish?
    ensures Inv(Step(q, t, Release), k)
  {
    hide And, Pow2;
    var r := Step(q, t, Release);
    var p := q.threads[t].ticket;
    assert LocalOk(q, t);
    forall i: nat | i <= r.mask ensures CellOk(r, i) {
      PublishKeepsCell(q, k, t, i);
    }
    forall u: nat | u < |r.threads| ensures LocalOk(r, u) {
      if u != t {
        assert LocalOk(q, u);
        AloneOnCell(q, k, t, p, u);
      }
    }
    forall j: nat | j < |r.takers| ensures TakeOk(r, j) {
      assert TakeOk(q, j);
    }
  }

  lemma ReleaseKeepsCell<T>(q: Queue<T>, k: nat, t: nat, i: nat)
    requires Inv(q, k) && t < |q.threads| && q.threads[t].DRelease? && i <= q.mask
    ensures CellOk(Step(q, t, Release), i)
  {
    hide And, Pow2;
    var r := Step(q, t, Release);
    var p := q.threads[t].ticket;
    assert LocalOk(q, t);
    if i == Index(p, q.mask) {
      ReadsHolding(q, k, t, p);
      IndexNextLap(p, k);
      assert Waiting(r, i, p + q.mask + 1);
    } else {
      assert CellOk(q, i);
      var s := q.seqs[i];
      if Waiting(q, i, s) {
        assert Waiting(r, i, s);
      } else {
        assert Holding(r, i, s - 1);
      }
    }
  }

  lemma ReleaseKeepsLocal<T>(q: Queue<T>, k: nat, t: nat, u: nat)
    requires Inv(q, k) && t < |q.threads| && q.threads[t].DRelease? && u < |q.threads|
    ensures LocalOk(Step(q, t, Release), u)
  {
    hide And, Pow2;
    assert LocalOk(q, t) && LocalOk(q, u);
    if u != t {
      AloneOnCell(q, k, t, q.threads[t].ticket, u);
    }
  }

  lemma ReleaseKeepsInv<T>(q: Queue<T>, k: nat, t: nat)
    requires Inv(q, k) && t < |q.threads| && q.threads[t].DRelease?
    ensures Inv(Step(q, t, Release), k)
  {
    hide And, Pow2;
    var r := Step(q, t, Release);
    assert LocalOk(q, t);
    forall i: nat | i <= r.mask ensures CellOk(r, i) {
      ReleaseKeepsCell(q, k, t, i);
    }
    forall u: nat | u < |r.threads| ensures LocalOk(r, u) {
      ReleaseKeepsLocal(q, k, t, u);
    }
    forall j: nat | j < |r.takers| ensures TakeOk(r, j) {
      assert TakeOk(q, j);
    }
  }

  lemma TestKeepsInv<T>(q: Queue<T>, k: nat, t: nat)
    requires Inv(q, k) && t < |q.threads| && (q.threads[t].ETest? || q.threads[t].DTest?)
    ensures Inv(Step(q, t, Test), k)
  {
    hide And, Pow2;
    assert LocalOk(q, t);
    var pos := q.threads[t].pos;
    if q.threads[t].ETest? {
      if pos < q.enq { ClaimedCell(q, k, pos); } else { EnqueueCell(q, k); }
    } else {
      if pos < q.deq { ClaimedCell(q, k, pos); } else { DequeueCell(q, k); }
    }
    LocalStepKeepsInv(q, k, t, Step(q, t, Test).threads[t]);
  }

  lemma DecideKeepsInv<T>(q: Queue<T>, k: nat, t: nat, lag: nat, spurious: bool)
    requires Inv(q, k) && t < |q.threads| && (q.threads[t].EDecide? || q.threads[t].DDecide?)
    ensures Inv(Step(q, t, Decide(lag, spurious)), k)
  {
    hide And, Pow2;
    assert LocalOk(q, t);
    var r := Step(q, t, Decide(lag, spurious));
    match q.threads[t] {
      case EDecide(v, pos, sq) =>
        if lag <= |q.puts| {
          if sq == pos == q.enq && !spurious {
            EnqueueClaimKeepsInv(q, k, t, v, lag);
          } else {
            LocalStepKeepsInv(q, k, t, r.threads[t]);
          }
        }
      case DDecide(pos, sq) =>
        if lag <= |q.takers| {
          if sq == pos + 1 && pos == q.deq && !spurious {
            DequeueClaimKeepsInv(q, k, t, lag);
          } else {
            LocalStepKeepsInv(q, k, t, r.threads[t]);
          }
        }
    }
  }

  lemma StepKeepsInv<T>(q: Queue<T>, k: nat, t: nat, a: Action<T>)
    requires Inv(q, k)
    ensures Inv(Step(q, t, a), k)
  {
    hide And, Pow2;
    if t < |q.threads| {
      match (a, q.threads[t]) {
        case (Test, ETest(_, _)) => TestKeepsInv(q, k, t);
        case (Test, DTest(_)) => TestKeepsInv(q, k, t);
        case (Decide(lag, spurious), EDecide(_, _, _)) => DecideKeepsInv(q, k, t, lag, spurious);
        case (Decide(lag, spurious), DDecide(_, _)) => DecideKeepsInv(q, k, t, lag, spurious);
        case (Access, EWrite(_, _, _)) => WriteKeepsInv(q, k, t);
        case (Access, DRead(_, _)) => ReadKeepsInv(q, k, t);
        case (Release, EPublish(_, _, _)) => PublishKeepsInv(q, k, t);
        case (Release, DRelease(_, _, _)) => ReleaseKeepsInv(q, k, t);
        case (CallEnqueue(v), Idle) => LocalStepKeepsInv(q, k, t, EStart(v));
        case (CallDequeue, Idle) => LocalStepKeepsInv(q, k, t, DStart);
        case (Load(lag), EStart(v)) =>
          if lag <= |q.puts| { LocalStepKeepsInv(q, k, t, ETest(v, q.enq - lag)); }
        case (Load(lag), DStart) =>
          if lag <= |q.takers| { LocalStepKeepsInv(q, k, t, DTest(q.deq - lag)); }
        case (Return, EDone(_)) => LocalStepKeepsInv(q, k, t, Idle);
        case (Return, DDone(_)) => LocalStepKeepsInv(q, k, t, Idle);
        case _ =>
      }
    }
  }

  lemma {:induction false} RunKeepsInv<T>(q: Queue<T>, k: nat, sched: Schedule<T>)
    requires Inv(q, k)
    ensures Inv(Run(q, sched), k)
    decreases |sched|
  {
    if sched != [] {
      RunKeepsInv(q, k, sched[..|sched| - 1]);
      StepKeepsInv(Run(q, sched[..|sched| - 1]), k, sched[|sched| - 1].0, sched[|sched| - 1].1);
    }
  }
}
