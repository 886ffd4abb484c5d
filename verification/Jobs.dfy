/** Jobs as the scheduler sees them: their priorities, the queue that serves each, and the order in which
    the queues are served. */
module Jobs {

  /** JobPriority; the enumeration is a byte, so any other value can be passed too. */
  datatype JobPriority = High | Normal | Low | IO | Unknown(code: nat)

  datatype QueueName = HighQueue | NormalQueue | LowQueue | IoQueue | NoQueue

  function GetQueueByPriority(prio: JobPriority): (q: QueueName)
    ensures q == NoQueue <==> prio.Unknown?
  {
    match prio
    case High => HighQueue
    case Normal => NormalQueue
    case Low => LowQueue
    case IO => IoQueue
    case Unknown(_) => NoQueue
  }

  /** What the four queues hold, oldest first. */
  datatype JobQueues<+T> = JobQueues(high: seq<T>, normal: seq<T>, low: seq<T>, io: seq<T>)

  /** A job accepted by the queue of its priority. */
  function Scheduled<T>(q: JobQueues<T>, prio: JobPriority, job: T): JobQueues<T> {
    match GetQueueByPriority(prio)
    case HighQueue => q.(high := q.high + [job])
    case NormalQueue => q.(normal := q.normal + [job])
    case LowQueue => q.(low := q.low + [job])
    case IoQueue => q.(io := q.io + [job])
    case NoQueue => q
  }

  datatype Taking<+T> = NothingToDo | Took(job: T, rest: JobQueues<T>)

  /** What a thread takes that has no ready fiber to go on with. */
  function Take<T>(q: JobQueues<T>, isIO: bool): Taking<T> {
    if isIO then
      if q.io == [] then NothingToDo else Took(q.io[0], q.(io := q.io[1..]))
    else if q.high != [] then Took(q.high[0], q.(high := q.high[1..]))
    else if q.normal != [] then Took(q.normal[0], q.(normal := q.normal[1..]))
    else if q.low != [] then Took(q.low[0], q.(low := q.low[1..]))
    else NothingToDo
  }

  /** The jobs a thread gets, in order, by taking one after another until there is nothing to do. */
  function Served<T>(q: JobQueues<T>, isIO: bool): seq<T>
    decreases |q.high| + |q.normal| + |q.low| + |q.io|
  {
    match Take(q, isIO)
    case NothingToDo => []
    case Took(job, rest) => [job] + Served(rest, isIO)
  }

  lemma {:induction false} IoServed<T>(q: JobQueues<T>)
    ensures Served(q, true) == q.io
    decreases |q.io|
  {
    if q.io != [] { IoServed(q.(io := q.io[1..])); }
  }

  lemma {:induction false} LowServed<T>(q: JobQueues<T>)
    requires q.high == [] && q.normal == []
    ensures Served(q, false) == q.low
    decreases |q.low|
  {
    if q.low != [] { LowServed(q.(low := q.low[1..])); }
  }

  lemma {:induction false} NormalServed<T>(q: JobQueues<T>)
    requires q.high == []
    ensures Served(q, false) == q.normal + q.low
    decreases |q.normal|
  {
    if q.normal == [] { LowServed(q); } else { NormalServed(q.(normal := q.normal[1..])); }
  }

  /** An IO thread serves the IO jobs and no others, every other thread all but the IO jobs, by priority; and
      each queue is served in the order in which its jobs were scheduled. */
  lemma {:induction false} ServedByPriority<T>(q: JobQueues<T>)
    ensures Served(q, true) == q.io
    ensures Served(q, false) == q.high + q.normal + q.low
    decreases |q.high|
  {
    IoServed(q);
    if q.high == [] { NormalServed(q); } else { ServedByPriority(q.(high := q.high[1..])); }
  }

  /** Where a newly scheduled job comes: after all jobs of its own priority and before all of a lower one. */
  lemma ScheduledIsServed<T>(q: JobQueues<T>, job: T)
    ensures Served(Scheduled(q, High, job), false) == q.high + [job] + q.normal + q.low
    ensures Served(Scheduled(q, Normal, job), false) == q.high + q.normal + [job] + q.low
    ensures Served(Scheduled(q, Low, job), false) == q.high + q.normal + q.low + [job]
    ensures Served(Scheduled(q, IO, job), false) == q.high + q.normal + q.low
    ensures Served(Scheduled(q, IO, job), true) == q.io + [job]
    ensures forall prio: JobPriority | prio != IO :: Served(Scheduled(q, prio, job), true) == q.io
    ensures forall code: nat :: Scheduled(q, Unknown(code), job) == q
  {
    forall prio: JobPriority { ServedByPriority(Scheduled(q, prio, job)); }
    assert q.high + (q.normal + [job]) + q.low == q.high + q.normal + [job] + q.low;
    assert q.high + q.normal + (q.low + [job]) == q.high + q.normal + q.low + [job];
  }

  /** A high job scheduled when none is waiting is the next one that a thread takes. */
  lemma HighJobIsNext<T>(q: JobQueues<T>, job: T)
    requires q.high == []
    ensures Take(Scheduled(q, High, job), false) == Took(job, q)
  {
  }
}
