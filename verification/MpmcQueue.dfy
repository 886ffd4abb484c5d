/** The ring buffer as the object it is: arrays changed in place by retry loops, with w-bit counters.
    Used by one caller at a time it is a bounded FIFO, for any number of operations, across every
    overflow of the counters, however stale the first load and however often the weak
    compare-exchange fails. */
module MpmcObject {
  import opened Arith
  import opened Mpmc
  import opened MpmcWrap

  /** The arrays hold `items`, whose first has ticket `head`, and wait for the tickets after them. */
  ghost predicate Layout<T>(seqs: seq<nat>, data: seq<T>, head: nat, items: seq<T>, k: nat, w: WordSize) {
    var n, m := Pow2(k), Pow2(w);
    && |seqs| == |data| == n && |items| <= n
    && (forall p: nat | head <= p < head + |items| :: HoldsItem(seqs, data, head, items, p, k, w))
    && (forall p: nat | head + |items| <= p < head + n :: WaitsFor(seqs, p, k, w))
  }

  ghost predicate HoldsItem<T>(seqs: seq<nat>, data: seq<T>, head: nat, items: seq<T>, p: nat, k: nat, w: WordSize)
    requires |seqs| == |data| == Pow2(k) && head <= p < head + |items|
  {
    var i := Index(p, Pow2(k) - 1);
    seqs[i] == Wrap(p + 1, Pow2(w)) && data[i] == items[p - head]
  }

  ghost predicate WaitsFor(seqs: seq<nat>, p: nat, k: nat, w: WordSize)
    requires |seqs| == Pow2(k)
  {
    seqs[Index(p, Pow2(k) - 1)] == Wrap(p, Pow2(w))
  }

  lemma LayoutAfterPut<T>(seqs: seq<nat>, data: seq<T>, head: nat, items: seq<T>, value: T, k: nat, w: WordSize)
    requires Layout(seqs, data, head, items, k, w) && |items| < Pow2(k)
    ensures var tail := head + |items|;
            var i := Index(tail, Pow2(k) - 1);
            Layout(seqs[i := Wrap(tail + 1, Pow2(w))], data[i := value], head, items + [value], k, w)
  {
    hide Index, Wrap, Pow2;
    var n, tail := Pow2(k), head + |items|;
    var i := Index(tail, n - 1);
    var seqs', data' := seqs[i := Wrap(tail + 1, Pow2(w))], data[i := value];
    forall p: nat | head <= p < tail + 1 ensures HoldsItem(seqs', data', head, items + [value], p, k, w) {
      if p < tail {
        assert HoldsItem(seqs, data, head, items, p, k, w);
        if Index(p, n - 1) == i { IndexInjective(p, tail, k); }
      }
    }
    forall p: nat | tail + 1 <= p < head + n ensures WaitsFor(seqs', p, k, w) {
      assert WaitsFor(seqs, p, k, w);
      if Index(p, n - 1) == i { IndexInjective(p, tail, k); }
    }
  }

  lemma LayoutAfterTake<T>(seqs: seq<nat>, data: seq<T>, head: nat, items: seq<T>, k: nat, w: WordSize)
    requires Layout(seqs, data, head, items, k, w) && |items| > 0
    ensures var i := Index(head, Pow2(k) - 1);
            data[i] == items[0] && Layout(seqs[i := Wrap(head + Pow2(k), Pow2(w))], data, head + 1, items[1..], k, w)
  {
    hide Index, Wrap, Pow2;
    var n := Pow2(k);
    var i := Index(head, n - 1);
    var seqs' := seqs[i := Wrap(head + n, Pow2(w))];
    assert HoldsItem(seqs, data, head, items, head, k, w);
    var next, rest := head + 1, items[1..];
    forall p: nat | next <= p < next + |rest| ensures HoldsItem(seqs', data, next, rest, p, k, w) {
      assert HoldsItem(seqs, data, head, items, p, k, w);
      if Index(p, n - 1) == i { IndexInjective(p, head, k); }
    }
    forall p: nat | head + |items| <= p < head + 1 + n ensures WaitsFor(seqs', p, k, w) {
      IndexNextLap(head, k);
      if p < head + n {
        assert WaitsFor(seqs, p, k, w);
        if Index(p, n - 1) == i { IndexInjective(p, head, k); }
      }
    }
  }

  /** Every position shares its cell with exactly one ticket of the current window. */
  lemma {:induction false} WindowTicket(p: nat, head: nat, k: nat) returns (r: nat)
    requires p < head + Pow2(k)
    ensures head <= r < head + Pow2(k) && Index(r, Pow2(k) - 1) == Index(p, Pow2(k) - 1)
    ensures if p >= head then r == p else r >= p + Pow2(k)
    decreases head - p
  {
    if p >= head {
      r := p;
    } else {
      IndexNextLap(p, k);
      r := WindowTicket(p + Pow2(k), head, k);
    }
  }

  /** The signed difference a caller at position p sees when it wants to put (`ahead` 0) or take
      (`ahead` 1): zero exactly when it may, negative exactly when the position is current and the
      queue is full or empty, positive when the position is stale. */
  lemma Seen<T>(seqs: seq<nat>, data: seq<T>, head: nat, items: seq<T>, k: nat, w: WordSize, p: nat, ahead: nat)
    requires Layout(seqs, data, head, items, k, w) && 1 <= k < w && ahead <= 1
    requires var c := if ahead == 0 then head + |items| else head; p <= c && c - p + Pow2(k) <= Pow2(w - 1)
    ensures var c := if ahead == 0 then head + |items| else head;
            var room := if ahead == 0 then |items| < Pow2(k) else |items| > 0;
            var dif := Bits(w).Difference(seqs[Index(p, Pow2(k) - 1)], Wrap(p + ahead, Pow2(w)));
            && (dif == 0 <==> p == c && room)
            && (dif < 0 <==> p == c && !room)
  {
    hide Index, Wrap, Pow2, Width.Difference;
    var n := Pow2(k);
    var c := if ahead == 0 then head + |items| else head;
    var r: nat;
    if p == c && ahead == 0 && |items| == n {
      IndexNextLap(head, k);
      r := head;
    } else {
      r := WindowTicket(p, head, k);
    }
    if r < head + |items| {
      assert HoldsItem(seqs, data, head, items, r, k, w);
      DifferenceKept(r + 1, p + ahead, w);
    } else {
      assert WaitsFor(seqs, r, k, w);
      DifferenceKept(r, p + ahead, w);
    }
  }

  class MpmcQueue<T(0)> {
    const w: WordSize               // bits of size_t
    ghost const k: nat              // the capacity is 2^k
    const mask: nat                 // buffer_mask_
    const sequence: array<nat>      // buffer_[i].sequence_
    const data: array<T>            // buffer_[i].data_
    var enqueuePos: nat
    var dequeuePos: nat
    ghost var head: nat             // tickets dequeued so far
    ghost var items: seq<T>         // what the queue holds, oldest first

    ghost predicate Valid()
      reads this, sequence, data
    {
      && 1 <= k < w && mask == Pow2(k) - 1 && sequence as object != data as object
      && Layout(sequence[..], data[..], head, items, k, w)
      && enqueuePos == Wrap(head + |items|, Pow2(w))
      && dequeuePos == Wrap(head, Pow2(w))
    }

    constructor (k: nat, w: WordSize)
      requires 1 <= k < w
      ensures Valid() && fresh(sequence) && fresh(data)
      ensures this.k == k && this.w == w && items == []
    {
      this.k := k;
      this.w := w;
      var size := Pow2(k);
      var cells := new nat[size];
      var values := new T[size];
      var i := 0;
      while i != size
        invariant 0 <= i <= size
        invariant forall j: nat | j < i :: cells[j] == Wrap(j, Pow2(w))
      {
        cells[i] := Wrap(i, Pow2(w));
        i := i + 1;
      }
      mask := size - 1;
      sequence := cells;
      data := values;
      enqueuePos := 0;
      dequeuePos := 0;
      head := 0;
      items := [];
      new;
      forall p: nat | p < size ensures WaitsFor(sequence[..], p, k, w) {
        MaskIsMod(p, k);
        DivUnique(p, size, 0, p);
      }
      DivUnique(0, Pow2(w), 0, 0);
    }

    /** `lag` tells how stale the first relaxed load is, `failures` how often the weak
        compare-exchange fails although it could succeed. */
    method Enqueue(value: T, lag: nat, failures: nat) returns (ok: bool)
      requires Valid() && lag <= head + |items| && lag + mask + 1 <= Pow2(w - 1)
      modifies this, sequence, data
      ensures Valid() && head == old(head)
      ensures ok == (|old(items)| < mask + 1)
      ensures items == if ok then old(items) + [value] else old(items)
    {
      hide Index, Wrap, Pow2, Layout, Width.Difference;
      ghost var tail := head + |items|;
      ghost var stale: nat := lag;
      var left: nat := failures;
      NormShift(tail, 0 - lag, w);
      var pos := Bits(w).Norm(enqueuePos - lag);
      while true
        invariant Valid() && head == old(head) && items == old(items)
        invariant stale <= lag && pos == Wrap(tail - stale, Pow2(w))
        invariant sequence[..] == old(sequence[..]) && data[..] == old(data[..])
        decreases left, stale
      {
        IndexWraps(tail - stale, k, w);
        Seen(sequence[..], data[..], head, items, k, w, tail - stale, 0);
        LayoutShape(sequence[..], data[..], head, items, k, w);
        var dif := Bits(w).Difference(sequence[Index(pos, mask)], pos);
        if dif == 0 {
          if left == 0 {
            break;
          }
          left := left - 1;
          pos := enqueuePos;
        } else if dif < 0 {
          return false;
        } else {
          pos := enqueuePos;
        }
        stale := 0;
      }
      NormShift(tail, 1, w);
      enqueuePos := Bits(w).Norm(pos + 1);
      LayoutAfterPut(sequence[..], data[..], head, items, value, k, w);
      ghost var seqs, values := sequence[..], data[..];
      data[Index(pos, mask)] := value;
      sequence[Index(pos, mask)] := Bits(w).Norm(pos + 1);
      assert sequence[..] == seqs[Index(pos, mask) := Wrap(tail + 1, Pow2(w))];
      assert data[..] == values[Index(pos, mask) := value];
      items := items + [value];
      return true;
    }

    method Dequeue(lag: nat, failures: nat) returns (item: Option<T>)
      requires Valid() && lag <= head && lag + mask + 1 <= Pow2(w - 1)
      modifies this, sequence
      ensures Valid()
      ensures item == if old(items) == [] then None else Some(old(items)[0])
      ensures items == if old(items) == [] then [] else old(items)[1..]
    {
      hide Index, Wrap, Pow2, Layout, Width.Difference;
      ghost var stale: nat := lag;
      var left: nat := failures;
      NormShift(head, 0 - lag, w);
      var pos := Bits(w).Norm(dequeuePos - lag);
      while true
        invariant Valid() && head == old(head) && items == old(items)
        invariant stale <= lag && pos == Wrap(head - stale, Pow2(w))
        invariant sequence[..] == old(sequence[..])
        decreases left, stale
      {
        IndexWraps(head - stale, k, w);
        NormShift(head - stale, 1, w);
        Seen(sequence[..], data[..], head, items, k, w, head - stale, 1);
        LayoutShape(sequence[..], data[..], head, items, k, w);
        var dif := Bits(w).Difference(sequence[Index(pos, mask)], Bits(w).Norm(pos + 1));
        if dif == 0 {
          if left == 0 {
            break;
          }
          left := left - 1;
          pos := dequeuePos;
        } else if dif < 0 {
          return None;
        } else {
          pos := dequeuePos;
        }
        stale := 0;
      }
      NormShift(head, 1, w);
      NormShift(head, mask + 1, w);
      dequeuePos := Bits(w).Norm(pos + 1);
      LayoutAfterTake(sequence[..], data[..], head, items, k, w);
      ghost var seqs := sequence[..];
      item := Some(data[Index(pos, mask)]);
      sequence[Index(pos, mask)] := Bits(w).Norm(pos + mask + 1);
      assert sequence[..] == seqs[Index(pos, mask) := Wrap(head + mask + 1, Pow2(w))];
      head := head + 1;
      items := items[1..];
    }
  }

  lemma LayoutShape<T>(seqs: seq<nat>, data: seq<T>, head: nat, items: seq<T>, k: nat, w: WordSize)
    requires Layout(seqs, data, head, items, k, w)
    ensures |seqs| == |data| == Pow2(k) && |items| <= Pow2(k)
  {
  }
}
