/** The chat server with its threads interleaved: each receiver tests isFull
    without the lock and enters the critical section later, the one sender does
    the same with isEmpty and then sends from the slot itself, one client at a
    time, while receivers go on enqueueing and clients go on connecting. Under
    the lock the very first enqueue sets `front` before it moves `rear`, and the
    unlocked tests can fall in between. */
module ChatSystem {
  import opened RingModel

  const MAX_NUM_CLIENT := 10

  /** A message in the queue. The index is how many were accepted before it; it
      is a mark for telling messages apart and no part of what is sent. */
  datatype Stamped = Stamped(message: Message, index: nat)

  /** `halfway` tells whether the test fell between the two assignments. */
  datatype Sender =
    | Polling                          // about to test isEmpty
    | Locking(halfway: bool)           // test passed; about to take the lock
    | Sending(slot: nat, next: nat)    // about to send the slot to client `next`

  datatype Lock = Free | Held(tid: int)

  /** When a client connected: how many messages had been dequeued by then, and
      whether the last of them was still on its way to this client. */
  datatype Joined = Joined(dequeued: nat, during: bool)

  /** `pending` holds the messages of receivers that have passed their test.
      `accepted` and `dequeued` record the queue's streams, `overruns` how often
      a message was inserted with no slot free, `underruns` how often the newest
      message was removed. */
  datatype Chat = Chat(
    ring: Ring<Stamped>,
    lock: Lock,
    pending: map<int, Message>,
    sender: Sender,
    clients: seq<seq<Stamped>>,
    joins: seq<Joined>,
    accepted: seq<Stamped>,
    dequeued: seq<Stamped>,
    overruns: nat,
    underruns: nat)

  datatype Event =
    | Connect
    | TestFull(tid: int, text: string)
    | Enter(tid: int)     // takes the lock and sets `front` if it is still -1
    | Insert(tid: int)    // moves `rear`, writes the slot and leaves
    | TestEmpty
    | Remove
    | Send

  function Start(slots: seq<Stamped>): Chat {
    Chat(Ring(-1, -1, slots), Free, map[], Polling, [], [], [], [], 0, 0)
  }

  predicate Can(c: Chat, e: Event) {
    match e
    case Connect => |c.clients| < MAX_NUM_CLIENT
    case TestFull(tid, _) => 0 <= tid < |c.clients| && tid !in c.pending
    case Enter(tid) => tid in c.pending && c.lock.Free?
    case Insert(tid) => c.lock == Held(tid)
    case TestEmpty => c.sender.Polling?
    case Remove => c.sender.Locking? && c.lock.Free?
    case Send => c.sender.Sending?
  }

  function JoinNow(c: Chat): Joined {
    Joined(|c.dequeued|, c.sender.Sending? && c.sender.next <= |c.clients|)
  }

  /** The first enqueue is between its two assignments. */
  predicate Halfway<T>(r: Ring<T>) {
    r.front == 0 && r.rear == -1
  }

  /** The queue without the first of the two. */
  function Settled<T>(r: Ring<T>): Ring<T> {
    if Halfway(r) then r.(front := -1) else r
  }

  function Next(g: Guard, c: Chat, e: Event): (c': Chat)
    requires |c.ring.slots| > 0
    ensures |c'.ring.slots| == |c.ring.slots|
  {
    match e
    case Connect => c.(clients := c.clients + [[]], joins := c.joins + [JoinNow(c)])
    case TestFull(tid, text) =>
      if Full(g, c.ring) then c else c.(pending := c.pending[tid := Message(tid, text)])
    case Enter(tid) =>
      c.(lock := Held(tid), ring := c.ring.(front := if c.ring.front == -1 then 0 else c.ring.front))
    case Insert(tid) => if tid in c.pending then Inserted(c, tid, c.pending[tid]) else c
    case TestEmpty => if Empty(c.ring) then c else c.(sender := Locking(Halfway(c.ring)))
    case Remove =>
      if !(0 <= c.ring.front < |c.ring.slots|) then c
      else c.(ring := RingModel.Remove(c.ring), sender := Sending(c.ring.front, 0),
              dequeued := c.dequeued + [Front(c.ring)],
              underruns := if Empty(c.ring) then c.underruns + 1 else c.underruns)
    case Send =>
      if !c.sender.Sending? then c
      else
        var next := c.sender.next;
        c.(clients := if next < |c.clients| && c.sender.slot < |c.ring.slots|
                      then c.clients[next := c.clients[next] + [c.ring.slots[c.sender.slot]]] else c.clients,
           sender := if next + 1 < MAX_NUM_CLIENT then Sending(c.sender.slot, next + 1) else Polling)
  }

  function Inserted(c: Chat, tid: int, m: Message): Chat
    requires |c.ring.slots| > 0
  {
    var stamped := Stamped(m, |c.accepted|);
    c.(ring := RingModel.Insert(c.ring, stamped), lock := Free, pending := c.pending - {tid},
       accepted := c.accepted + [stamped],
       overruns := if Count(Settled(c.ring)) == |c.ring.slots| then c.overruns + 1 else c.overruns)
  }

  function After(g: Guard, slots: seq<Stamped>, events: seq<Event>): (c: Chat)
    requires |slots| > 0
    ensures |c.ring.slots| == |slots|
  {
    if events == [] then Start(slots)
    else Next(g, After(g, slots, events[..|events| - 1]), events[|events| - 1])
  }

  ghost predicate IsRun(g: Guard, slots: seq<Stamped>, events: seq<Event>)
    requires |slots| > 0
  {
    events != [] ==>
      && IsRun(g, slots, events[..|events| - 1])
      && Can(After(g, slots, events[..|events| - 1]), events[|events| - 1])
  }

  // -------------------------------------------------- the queue in this system

  /** What came in is what went out followed by what is there. */
  ghost predicate IsFifo(c: Chat) {
    Valid(Settled(c.ring)) && c.accepted == c.dequeued + Contents(Settled(c.ring))
  }

  predicate Faultless(c: Chat) {
    c.overruns == 0 && c.underruns == 0
  }

  /** What holds as long as nothing was inserted into a full queue and the newest
      message was not removed. While the sender is sending, the address it holds
      denotes the dequeued message until the queue fills up, and then the newest
      accepted one. */
  ghost predicate QueueInv(c: Chat) {
    && IsFifo(c)
    && (forall k | 0 <= k < |c.accepted| :: c.accepted[k].index == k)
    && (c.lock.Held? ==> c.lock.tid in c.pending && c.ring.front != -1)
    && (Halfway(c.ring) ==> c.lock.Held?)
    && (Settled(c.ring).front == -1 ==> c.accepted == [])
    && SenderInv(c)
  }

  ghost predicate SenderInv(c: Chat) {
    match c.sender
    case Polling => true
    case Locking(halfway) => if halfway then c.ring.front != -1 && c.dequeued == [] else Count(Settled(c.ring)) >= 2
    case Sending(slot, _) =>
      && c.dequeued != [] && c.accepted != []
      && c.ring.front != -1 && slot < |c.ring.slots|
      && c.ring.front == (slot + 1) % |c.ring.slots|
      && c.ring.slots[slot] ==
         if Count(c.ring) < |c.ring.slots| then c.dequeued[|c.dequeued| - 1] else c.accepted[|c.accepted| - 1]
  }

  lemma CountIsLength<T>(r: Ring<T>)
    requires Valid(r)
    ensures Count(r) == |Contents(r)|
  {
  }

  lemma InsertIgnoresHalfway<T>(r: Ring<T>, m: T)
    requires |r.slots| > 0
    ensures RingModel.Insert(r, m) == RingModel.Insert(Settled(r), m)
  {
  }

  /** The lock's holder, with a slot free. */
  lemma InsertKeepsFifo(c: Chat, tid: int, m: Message)
    requires QueueInv(c) && Count(Settled(c.ring)) < |c.ring.slots|
    ensures IsFifo(Inserted(c, tid, m)) && !Halfway(Inserted(c, tid, m).ring)
    ensures Count(Inserted(c, tid, m).ring) == Count(Settled(c.ring)) + 1
  {
    var r, s := Settled(c.ring), Stamped(m, |c.accepted|);
    InsertIgnoresHalfway(c.ring, s);
    InsertAppends(r, s);
    CountIsLength(r);
    CountIsLength(RingModel.Insert(r, s));
    assert c.accepted + [s] == c.dequeued + (Contents(r) + [s]);
  }

  lemma InsertKeepsSlot(c: Chat, tid: int, m: Message)
    requires QueueInv(c) && c.sender.Sending? && Count(c.ring) < |c.ring.slots|
    ensures var c' := Inserted(c, tid, m);
            && c'.ring.front == c.ring.front
            && c'.ring.slots[c.sender.slot] ==
               if Count(c.ring) + 1 < |c.ring.slots| then c.ring.slots[c.sender.slot] else Stamped(m, |c.accepted|)
  {
    assert !Halfway(c.ring);
    InsertAtSlotBehind(c.ring, Stamped(m, |c.accepted|), c.sender.slot);
  }

  lemma InsertKeepsQueue(g: Guard, c: Chat, tid: int)
    requires QueueInv(c) && c.lock == Held(tid) && Count(Settled(c.ring)) < |c.ring.slots|
    ensures QueueInv(Next(g, c, Insert(tid)))
  {
    var m := c.pending[tid];
    InsertKeepsFifo(c, tid, m);
    CountIsLength(Settled(c.ring));
    CountIsLength(Inserted(c, tid, m).ring);
    if c.sender.Sending? {
      assert !Halfway(c.ring);
      InsertKeepsSlot(c, tid, m);
    }
  }

  lemma RemoveKeepsQueue(g: Guard, c: Chat)
    requires QueueInv(c) && Can(c, Remove) && Count(c.ring) >= 2
    ensures QueueInv(Next(g, c, Remove))
    ensures Count(RingModel.Remove(c.ring)) < |c.ring.slots|
  {
    var had := Contents(c.ring);
    RemoveDropsFirst(c.ring);
    FullMeansAllOccupied(c.ring);
    CountIsLength(c.ring);
    CountIsLength(RingModel.Remove(c.ring));
    assert had == [had[0]] + had[1..];
    assert c.dequeued + had == c.dequeued + [had[0]] + had[1..];
  }

  lemma TestKeepsQueue(g: Guard, c: Chat)
    requires QueueInv(c) && c.sender.Polling?
    ensures QueueInv(Next(g, c, TestEmpty))
  {
    FullMeansAllOccupied(Settled(c.ring));
    CountIsLength(Settled(c.ring));
  }

  /** A removal takes the newest message exactly when the queue reports empty
      again by then, which needs a test made halfway. */
  lemma RemoveOccupied(c: Chat)
    requires QueueInv(c) && Can(c, Remove)
    ensures 0 <= c.ring.front < |c.ring.slots| && Settled(c.ring) == c.ring && Count(c.ring) >= 1
    ensures Empty(c.ring) <==> Count(c.ring) == 1
    ensures Empty(c.ring) <==> c.sender.halfway && |c.accepted| == 1
  {
    FullMeansAllOccupied(c.ring);
    CountIsLength(c.ring);
  }

  lemma EnterKeepsQueue(g: Guard, c: Chat, tid: int)
    requires QueueInv(c) && Can(c, Enter(tid))
    ensures QueueInv(Next(g, c, Enter(tid)))
  {
    assert Settled(Next(g, c, Enter(tid)).ring) == Settled(c.ring);
  }

  lemma SendKeepsQueue(g: Guard, c: Chat)
    requires QueueInv(c) && Can(c, Send)
    ensures QueueInv(Next(g, c, Send))
  {
    assert Next(g, c, Send).ring == c.ring;
  }

  lemma StepKeepsQueue(g: Guard, c: Chat, e: Event)
    requires QueueInv(c) && Can(c, e)
    requires Next(g, c, e).overruns == c.overruns && Next(g, c, e).underruns == c.underruns
    ensures QueueInv(Next(g, c, e))
  {
    match e
    case Insert(tid) =>
      FullMeansAllOccupied(Settled(c.ring));
      InsertKeepsQueue(g, c, tid);
    case Remove =>
      RemoveOccupied(c);
      RemoveKeepsQueue(g, c);
    case TestEmpty => TestKeepsQueue(g, c);
    case Enter(tid) => EnterKeepsQueue(g, c, tid);
    case Send => SendKeepsQueue(g, c);
    case Connect =>
    case TestFull(_, _) =>
  }

  lemma FaultsOnlyGrow(g: Guard, c: Chat, e: Event)
    requires |c.ring.slots| > 0
    ensures Next(g, c, e).overruns >= c.overruns && Next(g, c, e).underruns >= c.underruns
  {
  }

  lemma {:induction false} QueueHolds(g: Guard, slots: seq<Stamped>, events: seq<Event>)
    requires |slots| >= 2 && IsRun(g, slots, events) && Faultless(After(g, slots, events))
    ensures QueueInv(After(g, slots, events))
  {
    if events != [] {
      var before := events[..|events| - 1];
      FaultsOnlyGrow(g, After(g, slots, before), events[|events| - 1]);
      QueueHolds(g, slots, before);
      StepKeepsQueue(g, After(g, slots, before), events[|events| - 1]);
    }
  }

  /** The sender's test, made without the lock, still holds when it has it,
      whatever the receivers do in between, unless it was made halfway through
      the first enqueue and nothing else has been enqueued since. */
  lemma EmptyTestIsStable(g: Guard, slots: seq<Stamped>, events: seq<Event>)
    requires |slots| >= 2 && IsRun(g, slots, events) && Faultless(After(g, slots, events))
    requires Can(After(g, slots, events), Remove)
    ensures var c := After(g, slots, events);
            Empty(c.ring) <==> c.sender.halfway && |c.accepted| == 1
  {
    QueueHolds(g, slots, events);
    RemoveOccupied(After(g, slots, events));
  }

  // ------------------------------------------------- first in, first out or not

  /** The first fault of either kind breaks the order at once. */
  lemma FaultBreaksFifo(g: Guard, c: Chat, e: Event)
    requires QueueInv(c) && Can(c, e) && Faultless(c) && !Faultless(Next(g, c, e))
    ensures !IsFifo(Next(g, c, e))
  {
    if e.Insert? {
      var s := Stamped(c.pending[e.tid], |c.accepted|);
      InsertIgnoresHalfway(c.ring, s);
      InsertOverruns(Settled(c.ring), s);
      CountIsLength(Settled(c.ring));
    } else {
      RemoveOccupied(c);
      NextSlot(c.ring.front, |c.ring.slots|);
      CountIsLength(c.ring);
      assert Count(RingModel.Remove(c.ring)) == |c.ring.slots|;
    }
  }

  /** First in, first out at every moment of the run. */
  ghost predicate AlwaysFifo(g: Guard, slots: seq<Stamped>, events: seq<Event>)
    requires |slots| > 0
  {
    IsFifo(After(g, slots, events)) && (events != [] ==> AlwaysFifo(g, slots, events[..|events| - 1]))
  }

  /** The queue is first in, first out throughout a run exactly when nothing was
      inserted into a full queue and the newest message was never removed. */
  lemma {:induction false} FifoIffFaultless(g: Guard, slots: seq<Stamped>, events: seq<Event>)
    requires |slots| >= 2 && IsRun(g, slots, events)
    ensures AlwaysFifo(g, slots, events) <==> Faultless(After(g, slots, events))
  {
    if Faultless(After(g, slots, events)) {
      QueueHolds(g, slots, events);
    }
    if events != [] {
      var before := events[..|events| - 1];
      FifoIffFaultless(g, slots, before);
      if Faultless(After(g, slots, before)) && !Faultless(After(g, slots, events)) {
        QueueHolds(g, slots, before);
        FaultBreaksFifo(g, After(g, slots, before), events[|events| - 1]);
      }
    }
  }

  /** The sender never tests halfway through the first enqueue. */
  predicate NeverTestsHalfway(g: Guard, slots: seq<Stamped>, events: seq<Event>)
    requires |slots| > 0
  {
    events != [] ==>
      && NeverTestsHalfway(g, slots, events[..|events| - 1])
      && !(events[|events| - 1].TestEmpty? && Halfway(After(g, slots, events[..|events| - 1]).ring))
  }

  lemma {:induction false} LockingAsTested(g: Guard, slots: seq<Stamped>, events: seq<Event>)
    requires |slots| > 0 && IsRun(g, slots, events) && NeverTestsHalfway(g, slots, events)
    ensures var c := After(g, slots, events); c.sender.Locking? ==> !c.sender.halfway
  {
    if events != [] {
      LockingAsTested(g, slots, events[..|events| - 1]);
    }
  }

  /** Without such a test the sender never removes the newest message, unless the
      queue was overrun before. */
  lemma {:induction false} UnderrunNeedsHalfwayTest(g: Guard, slots: seq<Stamped>, events: seq<Event>)
    requires |slots| >= 2 && IsRun(g, slots, events) && NeverTestsHalfway(g, slots, events)
    requires After(g, slots, events).overruns == 0
    ensures After(g, slots, events).underruns == 0
  {
    if events != [] {
      var before := events[..|events| - 1];
      UnderrunNeedsHalfwayTest(g, slots, before);
      if events[|events| - 1].Remove? {
        QueueHolds(g, slots, before);
        RemoveOccupied(After(g, slots, before));
        LockingAsTested(g, slots, before);
      }
    }
  }

  // ------------------------------- the receivers' test needs the lock it lacks

  /** At most one receiver is ever between its test and the end of its critical
      section. */
  ghost predicate OneAtATime(g: Guard, slots: seq<Stamped>, events: seq<Event>)
    requires |slots| > 0
  {
    && |After(g, slots, events).pending| <= 1
    && (events != [] ==> OneAtATime(g, slots, events[..|events| - 1]))
  }

  lemma SingleEntry<K, V>(m: map<K, V>, k: K)
    requires k in m && |m| <= 1
    ensures m - {k} == map[]
  {
    assert |m.Keys - {k}| == |m.Keys| - 1;
    assert m.Keys - {k} == {};
  }

  /** Whoever has passed the test still finds room. */
  ghost predicate RoomInv(c: Chat) {
    QueueInv(c) && Faultless(c) && (c.pending != map[] ==> Count(Settled(c.ring)) < |c.ring.slots|)
  }

  lemma StepKeepsRoom(c: Chat, e: Event)
    requires RoomInv(c) && Can(c, e) && |c.pending| <= 1 && Next(Wrapped, c, e).underruns == 0
    ensures RoomInv(Next(Wrapped, c, e))
  {
    FullMeansAllOccupied(Settled(c.ring));
    StepKeepsQueue(Wrapped, c, e);
    match e
    case Insert(tid) => SingleEntry(c.pending, tid);
    case Remove =>
      RemoveOccupied(c);
      RemoveKeepsQueue(Wrapped, c);
    case _ =>
  }

  lemma {:induction false} RoomHolds(slots: seq<Stamped>, events: seq<Event>)
    requires |slots| >= 2 && IsRun(Wrapped, slots, events) && OneAtATime(Wrapped, slots, events)
    requires After(Wrapped, slots, events).underruns == 0
    ensures RoomInv(After(Wrapped, slots, events))
  {
    if events != [] {
      var before := events[..|events| - 1];
      FaultsOnlyGrow(Wrapped, After(Wrapped, slots, before), events[|events| - 1]);
      RoomHolds(slots, before);
      StepKeepsRoom(After(Wrapped, slots, before), events[|events| - 1]);
    }
  }

  /** With the receivers' test inside the lock and the modulo in place, the queue
      is first in, first out under every interleaving, exactly but for the
      sender removing the newest message; and it never does that if it does not
      test halfway through the first enqueue. */
  lemma FifoOneAtATime(slots: seq<Stamped>, events: seq<Event>)
    requires |slots| >= 2 && IsRun(Wrapped, slots, events) && OneAtATime(Wrapped, slots, events)
    ensures AlwaysFifo(Wrapped, slots, events) <==> After(Wrapped, slots, events).underruns == 0
    ensures NeverTestsHalfway(Wrapped, slots, events) ==> AlwaysFifo(Wrapped, slots, events)
  {
    FifoIffFaultless(Wrapped, slots, events);
    if After(Wrapped, slots, events).underruns == 0 {
      RoomHolds(slots, events);
    }
    if NeverTestsHalfway(Wrapped, slots, events) {
      NoHalfwayTestNoFault(slots, events);
    }
  }

  lemma {:induction false} NoHalfwayTestNoFault(slots: seq<Stamped>, events: seq<Event>)
    requires |slots| >= 2 && IsRun(Wrapped, slots, events) && OneAtATime(Wrapped, slots, events)
    requires NeverTestsHalfway(Wrapped, slots, events)
    ensures RoomInv(After(Wrapped, slots, events))
  {
    if events != [] {
      var before, e := events[..|events| - 1], events[|events| - 1];
      NoHalfwayTestNoFault(slots, before);
      LockingAsTested(Wrapped, slots, before);
      if e.Remove? {
        RemoveOccupied(After(Wrapped, slots, before));
      }
      StepKeepsRoom(After(Wrapped, slots, before), e);
    }
  }

  // ------------------------------------------------------- each user's messages

  /** The messages of `user` among `ms`. */
  function From(ms: seq<Stamped>, user: int): seq<Message> {
    if ms == [] then []
    else
      var m := ms[|ms| - 1].message;
      From(ms[..|ms| - 1], user) + if m.userId == user then [m] else []
  }

  /** The texts that the receiver `tid` got past its test, stamped with its id. */
  function Passed(g: Guard, slots: seq<Stamped>, events: seq<Event>, tid: int): seq<Message>
    requires |slots| > 0
  {
    if events == [] then []
    else
      var before, e := events[..|events| - 1], events[|events| - 1];
      Passed(g, slots, before, tid) +
      if e.TestFull? && e.tid == tid && !Full(g, After(g, slots, before).ring) then [Message(tid, e.text)] else []
  }

  function PendingOf(c: Chat, tid: int): seq<Message> {
    if tid in c.pending then [c.pending[tid]] else []
  }

  ghost predicate OwnMessages(c: Chat) {
    forall tid | tid in c.pending :: c.pending[tid].userId == tid
  }

  lemma FromOneMore(ms: seq<Stamped>, s: Stamped, user: int)
    ensures From(ms + [s], user) == From(ms, user) + if s.message.userId == user then [s.message] else []
  {
    assert (ms + [s])[..|ms|] == ms;
  }

  lemma StepKeepsUser(g: Guard, c: Chat, e: Event, tid: int, passed: seq<Message>)
    requires |c.ring.slots| > 0 && OwnMessages(c) && Can(c, e)
    requires From(c.accepted, tid) + PendingOf(c, tid) == passed
    ensures OwnMessages(Next(g, c, e))
    ensures From(Next(g, c, e).accepted, tid) + PendingOf(Next(g, c, e), tid) ==
            passed + if e.TestFull? && e.tid == tid && !Full(g, c.ring) then [Message(tid, e.text)] else []
  {
    if e.Insert? && e.tid in c.pending {
      FromOneMore(c.accepted, Stamped(c.pending[e.tid], |c.accepted|), tid);
    }
  }

  lemma {:induction false} UserMessagesKept(g: Guard, slots: seq<Stamped>, events: seq<Event>, tid: int)
    requires |slots| > 0 && IsRun(g, slots, events)
    ensures var c := After(g, slots, events);
            OwnMessages(c) && From(c.accepted, tid) + PendingOf(c, tid) == Passed(g, slots, events, tid)
  {
    if events != [] {
      var before := events[..|events| - 1];
      UserMessagesKept(g, slots, before, tid);
      StepKeepsUser(g, After(g, slots, before), events[|events| - 1], tid, Passed(g, slots, before, tid));
    }
  }

  lemma {:induction false} FromPrefix(a: seq<Stamped>, b: seq<Stamped>, user: int)
    requires a <= b
    ensures From(a, user) <= From(b, user)
  {
    if a != b {
      FromPrefix(a, b[..|b| - 1], user);
    }
  }

  /** On every run, under the user's id the queue has accepted exactly what that
      user's receiver got past its test, in the same order and all of it but a
      last message that may be waiting for the lock; and they come out in that
      order on the runs without a fault. */
  lemma UserOrderKept(g: Guard, slots: seq<Stamped>, events: seq<Event>, tid: int)
    requires |slots| >= 2 && IsRun(g, slots, events)
    ensures var c := After(g, slots, events);
            && From(c.accepted, tid) + PendingOf(c, tid) == Passed(g, slots, events, tid)
            && (Faultless(c) ==> From(c.dequeued, tid) <= From(c.accepted, tid))
  {
    UserMessagesKept(g, slots, events, tid);
    var c := After(g, slots, events);
    if Faultless(c) {
      QueueHolds(g, slots, events);
      FromPrefix(c.dequeued, c.accepted, tid);
    }
  }
}
