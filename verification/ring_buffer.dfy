/** The circular ready queue both schedulers use: an integer array, a head
    index (next to pop) and a tail index (next free slot), both advanced with
    `(i + 1) % size`. The capacity is the length of the array. Head equal to
    tail means empty, so an array of `n` slots holds at most `n - 1` entries;
    one more push wraps the tail onto the head and the queue reads as empty
    again. `Contents` is the abstract FIFO sequence the indices denote. */
module RingBuffer {
  import opened Collections

  datatype Ring = Ring(buf: seq<int>, head: int, tail: int)

  predicate Valid(q: Ring) {
    0 < |q.buf| && 0 <= q.head < |q.buf| && 0 <= q.tail < |q.buf|
  }

  /** A zero-filled array with both indices at slot 0, as C leaves a global. */
  function Empty(size: nat): (q: Ring)
    requires 0 < size
    ensures Valid(q) && |q.buf| == size
    ensures Contents(q) == []
    ensures InRange(q.buf, 1)
  {
    Ring(seq(size, _ => 0), 0, 0)
  }

  /** `(i + 1) % size`: the index after `i`, wrapping at the end of the array. */
  function Next(i: int, size: int): (j: int)
    requires 0 <= i < size
    ensures j == if i + 1 == size then 0 else i + 1
  {
    (i + 1) % size
  }

  /** Number of entries between head and tail. */
  function Size(q: Ring): (n: nat)
    requires Valid(q)
    ensures n < |q.buf|
    ensures n == 0 <==> q.head == q.tail
  {
    if q.head <= q.tail then q.tail - q.head else |q.buf| - q.head + q.tail
  }

  /** Array slot of the k-th oldest entry. */
  function Slot(q: Ring, k: int): (j: nat)
    requires Valid(q) && 0 <= k < |q.buf|
    ensures j < |q.buf|
  {
    if q.head + k < |q.buf| then q.head + k else q.head + k - |q.buf|
  }

  /** The queued entries, oldest first. */
  function Contents(q: Ring): (xs: seq<int>)
    requires Valid(q)
    ensures forall x :: x in xs ==> x in q.buf
    ensures forall j :: 0 <= j < |xs| ==> xs[j] in q.buf
  {
    seq(Size(q), k requires 0 <= k < Size(q) => q.buf[Slot(q, k)])
  }

  /** The slot after the last entry is the tail, and no entry sits there. */
  lemma SlotOfTail(q: Ring, k: int)
    requires Valid(q) && 0 <= k < |q.buf|
    ensures Slot(q, k) == q.tail <==> k == Size(q)
  {
  }

  /** Write at the tail, then advance the tail. */
  function Push(q: Ring, x: int): (r: Ring)
    requires Valid(q)
    ensures Valid(r) && |r.buf| == |q.buf|
    ensures forall y :: y in r.buf ==> y == x || y in q.buf
    ensures Size(q) + 1 < |q.buf| ==> Contents(r) == Contents(q) + [x]
    ensures Size(q) + 1 == |q.buf| ==> Contents(r) == []
  {
    PushMovesTail(q, x);
    Ring(q.buf[q.tail := x], q.head, Next(q.tail, |q.buf|))
  }

  lemma PushMovesTail(q: Ring, x: int)
    requires Valid(q)
    ensures var r := Ring(q.buf[q.tail := x], q.head, Next(q.tail, |q.buf|));
            && Valid(r)
            && (Size(q) + 1 < |q.buf| ==> Contents(r) == Contents(q) + [x])
            && (Size(q) + 1 == |q.buf| ==> Contents(r) == [])
  {
    var r := Ring(q.buf[q.tail := x], q.head, Next(q.tail, |q.buf|));
    if Size(q) + 1 < |q.buf| {
      assert Size(r) == Size(q) + 1;
      forall k | 0 <= k < Size(q)
        ensures Contents(r)[k] == Contents(q)[k]
      {
        SlotOfTail(q, k);
      }
      SlotOfTail(q, Size(q));
      assert Contents(r) == Contents(q) + [x];
    } else {
      assert r.tail == r.head;
    }
  }

  /** Empty (head == tail): -1 and nothing changes. Otherwise the entry at the
      head, with the head advanced. */
  function Pop(q: Ring): (r: (int, Ring))
    requires Valid(q)
    ensures Valid(r.1) && r.1.buf == q.buf && r.1.tail == q.tail
    ensures Contents(q) == [] <==> q.head == q.tail
    ensures Contents(q) == [] ==> r == (-1, q)
    ensures Contents(q) != [] ==> r.0 == Contents(q)[0] && Contents(r.1) == Contents(q)[1..]
  {
    if q.head == q.tail then (-1, q)
    else
      var rest := q.(head := Next(q.head, |q.buf|));
      assert Size(rest) == Size(q) - 1;
      assert forall k :: 0 <= k < Size(rest) ==> Slot(rest, k) == Slot(q, k + 1);
      (q.buf[q.head], rest)
  }

  /** Pushes `xs` in order. */
  function PushAll(q: Ring, xs: seq<int>): (r: Ring)
    requires Valid(q)
    ensures Valid(r) && |r.buf| == |q.buf| && r.head == q.head
    ensures forall y :: y in r.buf ==> y in xs || y in q.buf
    ensures Size(q) + |xs| < |q.buf| ==> Contents(r) == Contents(q) + xs
    decreases |xs|
  {
    if xs == [] then q
    else
      var r := PushAll(Push(q, xs[0]), xs[1..]);
      assert Size(q) + |xs| < |q.buf| ==> Contents(r) == Contents(q) + [xs[0]] + xs[1..];
      assert xs == [xs[0]] + xs[1..];
      r
  }

  /** Deletes every occurrence of `x`, keeping the other entries in FIFO
      order: the tail is rewound to the head and the survivors are pushed
      back. */
  function Remove(q: Ring, x: int): (r: Ring)
    requires Valid(q)
    ensures Valid(r) && |r.buf| == |q.buf|
    ensures forall y :: y in r.buf ==> y in q.buf
    ensures Contents(r) == Without(Contents(q), x)
  {
    var start := q.(tail := q.head);
    assert Size(start) == 0;
    PushAll(start, Without(Contents(q), x))
  }

  /** Pushing a list and then one more entry is pushing the longer list. */
  lemma {:induction false} PushAllSnoc(q: Ring, xs: seq<int>, x: int)
    requires Valid(q)
    ensures PushAll(q, xs + [x]) == Push(PushAll(q, xs), x)
    decreases |xs|
  {
    if xs == [] {
      assert [] + [x] == [x];
      assert [x][1..] == [];
    } else {
      assert (xs + [x])[0] == xs[0] && (xs + [x])[1..] == xs[1..] + [x];
      PushAllSnoc(Push(q, xs[0]), xs[1..], x);
    }
  }

  /** Pushing a list is pushing its head and then the rest. */
  lemma PushAllCons(q: Ring, x: int, xs: seq<int>)
    requires Valid(q)
    ensures PushAll(q, [x] + xs) == PushAll(Push(q, x), xs)
  {
    assert ([x] + xs)[0] == x && ([x] + xs)[1..] == xs;
  }
}
