/** Whole runs of the queue with each operation taken as one step: first in,
    first out, and what the missing modulo in isFull costs. */
module RingRuns {
  import opened RingModel

  datatype Op = Enqueue(mes: Message) | Dequeue

  /** `accepted` and `dequeued` are the streams into and out of the queue. */
  datatype Trace = Trace(ring: Ring<Message>, accepted: seq<Message>, dequeued: seq<Message>)

  function Do(g: Guard, t: Trace, op: Op): Trace
    requires |t.ring.slots| > 0
  {
    match op
    case Enqueue(m) =>
      if Full(g, t.ring) then t else t.(ring := Insert(t.ring, m), accepted := t.accepted + [m])
    case Dequeue =>
      if Empty(t.ring) || !(0 <= t.ring.front < |t.ring.slots|) then t
      else t.(ring := Remove(t.ring), dequeued := t.dequeued + [Front(t.ring)])
  }

  function Fresh(slots: seq<Message>): Trace {
    Trace(Ring(-1, -1, slots), [], [])
  }

  function Perform(g: Guard, slots: seq<Message>, ops: seq<Op>): (t: Trace)
    requires |slots| > 0
    ensures |t.ring.slots| == |slots|
  {
    if ops == [] then Fresh(slots) else Do(g, Perform(g, slots, ops[..|ops| - 1]), ops[|ops| - 1])
  }

  /** An enqueue in the state that the guard as written mistakes for not full. */
  predicate AtSeam(r: Ring<Message>, op: Op) {
    op.Enqueue? && r.front == 0 && r.rear == |r.slots| - 1
  }

  /** How often the run enqueues at the seam. */
  function Seams(g: Guard, slots: seq<Message>, ops: seq<Op>): nat
    requires |slots| > 0
  {
    if ops == [] then 0
    else
      var before := ops[..|ops| - 1];
      Seams(g, slots, before) + if AtSeam(Perform(g, slots, before).ring, ops[|ops| - 1]) then 1 else 0
  }

  lemma {:induction false} ValidAlways(g: Guard, slots: seq<Message>, ops: seq<Op>)
    requires |slots| >= 2
    ensures Valid(Perform(g, slots, ops).ring)
    ensures var t := Perform(g, slots, ops); t.accepted != [] <==> t.ring.front != -1
  {
    if ops != [] {
      ValidAlways(g, slots, ops[..|ops| - 1]);
      var t := Perform(g, slots, ops[..|ops| - 1]);
      NextSlot(t.ring.rear, |slots|);
      NextSlot(t.ring.front, |slots|);
    }
  }

  /** Messages accepted that neither came out nor are still there. */
  function Lost(t: Trace): int {
    |t.accepted| - |t.dequeued| - Count(t.ring)
  }

  lemma StepLoses(t: Trace, op: Op)
    requires Valid(t.ring)
    ensures Lost(Do(AsWritten, t, op)) == Lost(t) + if AtSeam(t.ring, op) then |t.ring.slots| else 0
  {
    FullMeansAllOccupied(t.ring);
    if op.Dequeue? {
      if !Empty(t.ring) { RemoveDropsFirst(t.ring); }
    } else if !Full(AsWritten, t.ring) {
      if Count(t.ring) < |t.ring.slots| {
        InsertAppends(t.ring, op.mes);
      } else {
        InsertOverruns(t.ring, op.mes);
      }
    }
  }

  /** Exactly `capacity` messages are lost each time the run enqueues at the
      seam, and none otherwise. */
  lemma {:induction false} EachSeamLosesCapacity(slots: seq<Message>, ops: seq<Op>)
    requires |slots| >= 2
    ensures Lost(Perform(AsWritten, slots, ops)) == Seams(AsWritten, slots, ops) * |slots|
  {
    if ops != [] {
      var before, n := ops[..|ops| - 1], |slots|;
      EachSeamLosesCapacity(slots, before);
      ValidAlways(AsWritten, slots, before);
      StepLoses(Perform(AsWritten, slots, before), ops[|ops| - 1]);
      assert (Seams(AsWritten, slots, before) + 1) * n == Seams(AsWritten, slots, before) * n + n;
    }
  }

  ghost predicate IsFifo(t: Trace) {
    Valid(t.ring) && t.accepted == t.dequeued + Contents(t.ring)
  }

  lemma EnqueueKeepsFifo(g: Guard, t: Trace, m: Message)
    requires IsFifo(t) && (g.Wrapped? || !AtSeam(t.ring, Enqueue(m)))
    ensures IsFifo(Do(g, t, Enqueue(m)))
  {
    FullMeansAllOccupied(t.ring);
    if !Full(g, t.ring) {
      InsertAppends(t.ring, m);
      assert t.accepted + [m] == t.dequeued + (Contents(t.ring) + [m]);
    }
  }

  lemma DequeueKeepsFifo(g: Guard, t: Trace)
    requires IsFifo(t)
    ensures IsFifo(Do(g, t, Dequeue))
  {
    FullMeansAllOccupied(t.ring);
    if !Empty(t.ring) {
      var had := Contents(t.ring);
      RemoveDropsFirst(t.ring);
      assert had == [had[0]] + had[1..];
      assert t.dequeued + had == t.dequeued + [had[0]] + had[1..];
    }
  }

  lemma StepKeepsFifo(g: Guard, t: Trace, op: Op)
    requires IsFifo(t) && (g.Wrapped? || !AtSeam(t.ring, op))
    ensures IsFifo(Do(g, t, op))
  {
    match op
    case Enqueue(m) => EnqueueKeepsFifo(g, t, m);
    case Dequeue => DequeueKeepsFifo(g, t);
  }

  lemma {:induction false} FifoUntilSeam(g: Guard, slots: seq<Message>, ops: seq<Op>)
    requires |slots| >= 2 && (g.Wrapped? || Seams(g, slots, ops) == 0)
    ensures IsFifo(Perform(g, slots, ops))
  {
    if ops != [] {
      FifoUntilSeam(g, slots, ops[..|ops| - 1]);
      StepKeepsFifo(g, Perform(g, slots, ops[..|ops| - 1]), ops[|ops| - 1]);
    }
  }

  lemma MoreThanZero(a: int, b: int)
    requires a > 0 && b > 0
    ensures a * b > 0
  {
  }

  /** The code as written is first in, first out exactly on the runs that never
      enqueue at the seam; with the modulo it is so on every run. */
  lemma FifoIffNoSeam(slots: seq<Message>, ops: seq<Op>)
    requires |slots| >= 2
    ensures IsFifo(Perform(AsWritten, slots, ops)) <==> Seams(AsWritten, slots, ops) == 0
    ensures IsFifo(Perform(Wrapped, slots, ops))
  {
    FifoUntilSeam(Wrapped, slots, ops);
    EachSeamLosesCapacity(slots, ops);
    if Seams(AsWritten, slots, ops) == 0 {
      FifoUntilSeam(AsWritten, slots, ops);
    } else {
      MoreThanZero(Seams(AsWritten, slots, ops), |slots|);
    }
  }

  /** The queue never gives out its newest message: when it reports empty after
      accepting something, all but the last accepted message have come out. */
  lemma NewestIsHeldBack(g: Guard, slots: seq<Message>, ops: seq<Op>)
    requires |slots| >= 2 && (g.Wrapped? || Seams(g, slots, ops) == 0)
    ensures var t := Perform(g, slots, ops);
            && t.dequeued <= t.accepted
            && (t.accepted != [] ==> |t.dequeued| < |t.accepted|)
            && (t.accepted != [] && Empty(t.ring) ==> t.dequeued == t.accepted[..|t.accepted| - 1])
  {
    FifoUntilSeam(g, slots, ops);
    ValidAlways(g, slots, ops);
    FullMeansAllOccupied(Perform(g, slots, ops).ring);
  }

  /** The seam is reached by filling a fresh queue; one message more and the
      whole of it is gone. */
  function AllEnqueued(ms: seq<Message>): seq<Op> {
    seq(|ms|, i requires 0 <= i < |ms| => Enqueue(ms[i]))
  }

  lemma {:induction false} FillingReachesSeam(slots: seq<Message>, ms: seq<Message>)
    requires |slots| >= 2 && |ms| <= |slots|
    ensures var t := Perform(AsWritten, slots, AllEnqueued(ms));
            && t.accepted == ms && t.dequeued == []
            && t.ring.rear == |ms| - 1 && t.ring.front == if ms == [] then -1 else 0
  {
    if ms != [] {
      var before := ms[..|ms| - 1];
      FillingReachesSeam(slots, before);
      assert AllEnqueued(ms)[..|ms| - 1] == AllEnqueued(before);
      assert before + [ms[|ms| - 1]] == ms;
      NextSlot(|before| - 1, |slots|);
    }
  }

  lemma OneMoreThanCapacityLosesAll(slots: seq<Message>, ms: seq<Message>, m: Message)
    requires |slots| >= 2 && |ms| == |slots|
    ensures var t := Perform(AsWritten, slots, AllEnqueued(ms) + [Enqueue(m)]);
            t.accepted == ms + [m] && t.dequeued == [] && Valid(t.ring) && Contents(t.ring) == [m]
  {
    FillingReachesSeam(slots, ms);
    var t := Perform(AsWritten, slots, AllEnqueued(ms));
    assert (AllEnqueued(ms) + [Enqueue(m)])[..|ms|] == AllEnqueued(ms);
    InsertOverruns(t.ring, m);
  }
}
