/** The chat server's circular queue as a value. Slots front..rear inclusive are
    occupied; front = rear = -1 until the first message. The capacity and the
    type of the entries are generic; the server's are 100 and Message. */
module RingModel {
  datatype Message = Message(userId: int, text: string)

  datatype Ring<T> = Ring(front: int, rear: int, slots: seq<T>)

  /** isFull as the server has it compares with rear + 1; wrapped, with
      (rear + 1) mod capacity. */
  datatype Guard = AsWritten | Wrapped

  ghost predicate Valid<T>(r: Ring<T>) {
    && |r.slots| >= 2
    && (r.front == r.rear == -1 || (0 <= r.front < |r.slots| && 0 <= r.rear < |r.slots|))
  }

  predicate Full<T>(g: Guard, r: Ring<T>)
    requires |r.slots| > 0
  {
    match g
    case AsWritten => r.front == r.rear + 1
    case Wrapped => r.front == (r.rear + 1) % |r.slots|
  }

  predicate Empty<T>(r: Ring<T>) {
    r.rear == r.front
  }

  /** The locked part of enqueue. */
  function Insert<T>(r: Ring<T>, m: T): Ring<T>
    requires |r.slots| > 0
  {
    var rear := (r.rear + 1) % |r.slots|;
    Ring(if r.front == -1 then 0 else r.front, rear, r.slots[rear := m])
  }

  /** The locked part of dequeue; what it returns is the address of the old
      front slot, not a copy. */
  function Remove<T>(r: Ring<T>): Ring<T>
    requires |r.slots| > 0
  {
    r.(front := (r.front + 1) % |r.slots|)
  }

  /** The message the returned address denotes. */
  function Front<T>(r: Ring<T>): T
    requires 0 <= r.front < |r.slots|
  {
    r.slots[r.front]
  }

  function Count<T>(r: Ring<T>): int {
    if r.front == -1 then 0
    else if r.front <= r.rear then r.rear - r.front + 1
    else r.rear - r.front + 1 + |r.slots|
  }

  /** The slot of the k-th occupied place. */
  function Place<T>(r: Ring<T>, k: int): int {
    if r.front + k < |r.slots| then r.front + k else r.front + k - |r.slots|
  }

  function Contents<T>(r: Ring<T>): seq<T>
    requires Valid(r)
  {
    seq(Count(r), k requires 0 <= k < Count(r) => r.slots[Place(r, k)])
  }

  lemma NextSlot(i: int, n: int)
    requires 0 <= i + 1 <= n && n > 0
    ensures (i + 1) % n == if i + 1 == n then 0 else i + 1
  {
  }

  /** Each guard against the true occupancy: the one as written overlooks the
      full queue that starts at slot 0. */
  lemma FullMeansAllOccupied<T>(r: Ring<T>)
    requires Valid(r)
    ensures Full(Wrapped, r) <==> Count(r) == |r.slots|
    ensures Full(AsWritten, r) <==> Count(r) == |r.slots| && !(r.front == 0 && r.rear == |r.slots| - 1)
    ensures Empty(r) <==> Count(r) <= 1
    ensures 0 <= Count(r) <= |r.slots|
  {
    NextSlot(r.rear, |r.slots|);
  }

  lemma InsertAppends<T>(r: Ring<T>, m: T)
    requires Valid(r) && Count(r) < |r.slots|
    ensures Valid(Insert(r, m)) && Contents(Insert(r, m)) == Contents(r) + [m]
  {
    NextSlot(r.rear, |r.slots|);
    var r' := Insert(r, m);
    assert Count(r') == Count(r) + 1;
    assert forall k | 0 <= k < Count(r) :: r'.slots[Place(r', k)] == r.slots[Place(r, k)];
  }

  /** Inserting into a full queue makes it look as if it held one message. */
  lemma InsertOverruns<T>(r: Ring<T>, m: T)
    requires Valid(r) && Count(r) == |r.slots|
    ensures Valid(Insert(r, m)) && Contents(Insert(r, m)) == [m]
  {
    NextSlot(r.rear, |r.slots|);
    assert Count(Insert(r, m)) == 1;
  }

  lemma RemoveDropsFirst<T>(r: Ring<T>)
    requires Valid(r) && Count(r) >= 2
    ensures Valid(Remove(r)) && Front(r) == Contents(r)[0] && Contents(Remove(r)) == Contents(r)[1..]
  {
    NextSlot(r.front, |r.slots|);
    var r' := Remove(r);
    assert Count(r') == Count(r) - 1;
    assert forall k | 0 <= k < Count(r') :: Place(r', k) == Place(r, k + 1);
  }

  // ------------------------------------------- the address dequeue hands out

  function InsertAll<T>(r: Ring<T>, ms: seq<T>): (r': Ring<T>)
    requires |r.slots| > 0
    ensures |r'.slots| == |r.slots|
  {
    if ms == [] then r else Insert(InsertAll(r, ms[..|ms| - 1]), ms[|ms| - 1])
  }

  lemma {:induction false} InsertAllAppends<T>(r: Ring<T>, ms: seq<T>)
    requires Valid(r) && Count(r) + |ms| <= |r.slots|
    ensures Valid(InsertAll(r, ms)) && Contents(InsertAll(r, ms)) == Contents(r) + ms
    ensures ms != [] && r.front != -1 ==> InsertAll(r, ms).front == r.front
  {
    if ms != [] {
      InsertAllAppends(r, ms[..|ms| - 1]);
      InsertAppends(InsertAll(r, ms[..|ms| - 1]), ms[|ms| - 1]);
      assert Contents(r) + ms == Contents(r) + ms[..|ms| - 1] + [ms[|ms| - 1]];
    }
  }

  /** The slot behind the front is the only free one left when all but one are
      occupied, and is overwritten by the next message. */
  lemma InsertAtSlotBehind<T>(r: Ring<T>, m: T, slot: nat)
    requires Valid(r) && r.front != -1 && Count(r) < |r.slots|
    requires slot < |r.slots| && r.front == (slot + 1) % |r.slots|
    ensures Insert(r, m).slots[slot] == if Count(r) + 1 < |r.slots| then r.slots[slot] else m
    ensures Insert(r, m).front == r.front
  {
    NextSlot(r.rear, |r.slots|);
    NextSlot(slot, |r.slots|);
  }

  /** After a dequeue from n occupied slots, the returned address still denotes
      the dequeued message for the next capacity - n messages and the one after
      them overwrites it. */
  lemma {:induction false} DequeuedSlotLifetime<T>(r: Ring<T>, ms: seq<T>)
    requires Valid(r) && Count(r) >= 2
    requires |ms| <= |r.slots| - Count(r) + 1
    ensures var later := InsertAll(Remove(r), ms);
            later.slots[r.front] == if |ms| <= |r.slots| - Count(r) then Contents(r)[0] else ms[|ms| - 1]
  {
    RemoveDropsFirst(r);
    if ms != [] {
      var before := ms[..|ms| - 1];
      DequeuedSlotLifetime(r, before);
      InsertAllAppends(Remove(r), before);
      InsertAtSlotBehind(InsertAll(Remove(r), before), ms[|ms| - 1], r.front);
    }
  }
}
