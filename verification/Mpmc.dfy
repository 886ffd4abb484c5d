/** The bounded multi-producer multi-consumer ring buffer as a step machine.

    Any number of threads run `enqueue` and `dequeue` concurrently; every atomic load, store and
    compare-exchange of the source is one step, and so is every access to a cell's data.  The
    counters are either unbounded or w bits wide, so that one machine serves both as the
    implementation (w bits) and as its idealisation.  `puts`, `takers` and `got` are history
    variables: they never influence a step. */
module Mpmc {
  import opened Arith

  datatype Option<+T> = None | Some(value: T)

  type WordSize = w: nat | w >= 1 witness 32

  /** Width of the position and sequence counters. */
  datatype Width = Unbounded | Bits(w: WordSize)
  {
    /** A value as stored in a counter of this width. */
    function Norm(x: int): nat
    {
      match this
      case Unbounded => if x < 0 then 0 else x
      case Bits(w) => Wrap(x, Pow2(w))
    }

    /** `(intptr_t)a - (intptr_t)b`. */
    function Difference(a: nat, b: nat): int
    {
      match this
      case Unbounded => a - b
      case Bits(w) => SignedSub(Wrap(a, Pow2(w)), Wrap(b, Pow2(w)), Pow2(w))
    }
  }

  /** Where a thread stands in `enqueue` (E...) or `dequeue` (D...).  `ticket` is the claimed
      position counted without wrap-around; it is history. */
  datatype Local<+T> =
    | Idle
    | EStart(value: T)                             // before loading enqueue_pos_
    | ETest(value: T, pos: nat)                    // before loading the cell's sequence
    | EDecide(value: T, pos: nat, sq: nat)         // before branching on the difference
    | EWrite(value: T, pos: nat, ticket: nat)      // claimed, before writing data_
    | EPublish(value: T, pos: nat, ticket: nat)    // before storing the sequence
    | EDone(ok: bool)
    | DStart
    | DTest(pos: nat)
    | DDecide(pos: nat, sq: nat)
    | DRead(pos: nat, ticket: nat)                 // claimed, before reading data_
    | DRelease(pos: nat, ticket: nat, item: Option<T>)
    | DDone(item: Option<T>)

  datatype Put<+T> = Put(value: T, who: nat)

  datatype Queue<T> = Queue(
    width: Width,
    mask: nat,                      // buffer_mask_
    seqs: seq<nat>,                 // buffer_[i].sequence_
    cells: seq<Option<T>>,          // buffer_[i].data_
    enq: nat,                       // enqueue_pos_
    deq: nat,                       // dequeue_pos_
    threads: seq<Local<T>>,
    puts: seq<Put<T>>,              // what was put, and by whom, in order of enqueue tickets
    takers: seq<nat>,               // who took, in order of dequeue tickets
    got: map<nat, Option<T>>)       // dequeue ticket -> value read

  predicate Shaped<T>(q: Queue<T>) {
    |q.seqs| == |q.cells| == q.mask + 1
  }

  /** The constructor: cell i waits for position i. */
  function Init<T>(width: Width, mask: nat, threads: nat): (q: Queue<T>)
    ensures Shaped(q)
  {
    Queue(width, mask, seq(mask + 1, i => width.Norm(i)), seq(mask + 1, i => None), 0, 0,
          seq(threads, i => Idle), [], [], map[])
  }

  /** Steps of one thread.  `lag` is how stale a relaxed load of a position counter is (0 when it
      returns the current value); `spurious` lets the weak compare-exchange fail for no reason. */
  datatype Action<+T> =
    | CallEnqueue(value: T)
    | CallDequeue
    | Load(lag: nat)
    | Test
    | Decide(lag: nat, spurious: bool)
    | Access
    | Release
    | Return

  function Set<T>(q: Queue<T>, t: nat, l: Local<T>): Queue<T>
    requires t < |q.threads|
  {
    q.(threads := q.threads[t := l])
  }

  function EnqDecide<T>(q: Queue<T>, t: nat, value: T, pos: nat, sq: nat, lag: nat, spurious: bool): Queue<T>
    requires t < |q.threads|
  {
    var dif := q.width.Difference(sq, pos);
    if dif == 0 && q.enq == pos && !spurious then
      Set(q, t, EWrite(value, pos, |q.puts|)).(enq := q.width.Norm(pos + 1), puts := q.puts + [Put(value, t)])
    else if dif < 0 then
      Set(q, t, EDone(false))
    else
      Set(q, t, ETest(value, q.width.Norm(q.enq - lag)))
  }

  function DeqDecide<T>(q: Queue<T>, t: nat, pos: nat, sq: nat, lag: nat, spurious: bool): Queue<T>
    requires t < |q.threads|
  {
    var dif := q.width.Difference(sq, q.width.Norm(pos + 1));
    if dif == 0 && q.deq == pos && !spurious then
      Set(q, t, DRead(pos, |q.takers|)).(deq := q.width.Norm(pos + 1), takers := q.takers + [t])
    else if dif < 0 then
      Set(q, t, DDone(None))
    else
      Set(q, t, DTest(q.width.Norm(q.deq - lag)))
  }

  /** One step of thread t; an action that does not fit where t stands changes nothing. */
  function Step<T>(q: Queue<T>, t: nat, a: Action<T>): (r: Queue<T>)
    requires Shaped(q)
    ensures Shaped(r)
  {
    if t >= |q.threads| then q else
    match (a, q.threads[t])
    case (CallEnqueue(v), Idle) => Set(q, t, EStart(v))
    case (CallDequeue, Idle) => Set(q, t, DStart)
    case (Load(lag), EStart(v)) => if lag <= |q.puts| then Set(q, t, ETest(v, q.width.Norm(q.enq - lag))) else q
    case (Load(lag), DStart) => if lag <= |q.takers| then Set(q, t, DTest(q.width.Norm(q.deq - lag))) else q
    case (Test, ETest(v, pos)) => Set(q, t, EDecide(v, pos, q.seqs[Index(pos, q.mask)]))
    case (Test, DTest(pos)) => Set(q, t, DDecide(pos, q.seqs[Index(pos, q.mask)]))
    case (Decide(lag, spurious), EDecide(v, pos, sq)) =>
      if lag <= |q.puts| then EnqDecide(q, t, v, pos, sq, lag, spurious) else q
    case (Decide(lag, spurious), DDecide(pos, sq)) =>
      if lag <= |q.takers| then DeqDecide(q, t, pos, sq, lag, spurious) else q
    case (Access, EWrite(v, pos, k)) =>
      Set(q, t, EPublish(v, pos, k)).(cells := q.cells[Index(pos, q.mask) := Some(v)])
    case (Access, DRead(pos, k)) =>
      var item := q.cells[Index(pos, q.mask)];
      Set(q, t, DRelease(pos, k, item)).(got := q.got[k := item])
    case (Release, EPublish(v, pos, k)) =>
      Set(q, t, EDone(true)).(seqs := q.seqs[Index(pos, q.mask) := q.width.Norm(pos + 1)])
    case (Release, DRelease(pos, k, item)) =>
      Set(q, t, DDone(item)).(seqs := q.seqs[Index(pos, q.mask) := q.width.Norm(pos + q.mask + 1)])
    case (Return, EDone(_)) => Set(q, t, Idle)
    case (Return, DDone(_)) => Set(q, t, Idle)
    case _ => q
  }

  /** A schedule: which thread takes which step, in order. */
  type Schedule<T> = seq<(nat, Action<T>)>

  function Run<T>(q: Queue<T>, sched: Schedule<T>): (r: Queue<T>)
    requires Shaped(q)
    ensures Shaped(r)
    decreases |sched|
  {
    if sched == [] then q
    else
      var pre := Run(q, sched[..|sched| - 1]);
      Step(pre, sched[|sched| - 1].0, sched[|sched| - 1].1)
  }
}
