/** Runs of the chat server, from its start, in which its queue and its
    broadcast go wrong, for either version of isFull and any capacity. */
module ChatRaces {
  import opened RingModel
  import opened ChatSystem
  import opened ChatBroadcast

  /** Some run leads to `c`. */
  ghost predicate Reachable(g: Guard, slots: seq<Stamped>, c: Chat)
    requires |slots| > 0
  {
    exists events :: IsRun(g, slots, events) && After(g, slots, events) == c
  }

  lemma StartReachable(g: Guard, slots: seq<Stamped>)
    requires |slots| > 0
    ensures Reachable(g, slots, Start(slots))
  {
    assert IsRun(g, slots, []) && After(g, slots, []) == Start(slots);
  }

  predicate Goes(g: Guard, c: Chat, e: Event, c': Chat) {
    |c.ring.slots| > 0 && Can(c, e) && c' == Next(g, c, e)
  }

  lemma Step(g: Guard, slots: seq<Stamped>, c: Chat, e: Event, c': Chat)
    requires |slots| > 0 && Reachable(g, slots, c) && Goes(g, c, e, c')
    ensures Reachable(g, slots, c')
  {
    var events :| IsRun(g, slots, events) && After(g, slots, events) == c;
    var all := events + [e];
    assert all[..|all| - 1] == events && all[|all| - 1] == e;
    assert IsRun(g, slots, all) && After(g, slots, all) == c';
  }

  function Enqueued(c: Chat, m: Message): Chat
    requires |c.ring.slots| > 0
  {
    var s := Stamped(m, |c.accepted|);
    c.(ring := RingModel.Insert(c.ring, s), accepted := c.accepted + [s],
       overruns := if Count(Settled(c.ring)) == |c.ring.slots| then c.overruns + 1 else c.overruns)
  }

  lemma EnqueueGoes(g: Guard, c: Chat, tid: int, text: string)
    requires |c.ring.slots| > 0 && c.pending == map[] && c.lock.Free?
    requires Can(c, TestFull(tid, text)) && !Full(g, c.ring) && (c.ring.front == -1 <==> c.ring.rear == -1)
    ensures var c1 := c.(pending := map[tid := Message(tid, text)]);
            var c2 := Next(g, c1, Enter(tid));
            && Goes(g, c, TestFull(tid, text), c1) && Goes(g, c1, Enter(tid), c2)
            && Goes(g, c2, Insert(tid), Enqueued(c, Message(tid, text)))
  {
    assert map[tid := Message(tid, text)] - {tid} == map[];
  }

  /** One receiver's test and its critical section, undisturbed. */
  lemma Enqueue(g: Guard, slots: seq<Stamped>, c: Chat, tid: int, text: string)
    requires |slots| > 0 && |c.ring.slots| > 0 && c.pending == map[] && c.lock.Free?
    requires Can(c, TestFull(tid, text)) && !Full(g, c.ring) && (c.ring.front == -1 <==> c.ring.rear == -1)
    requires Reachable(g, slots, c)
    ensures Reachable(g, slots, Enqueued(c, Message(tid, text)))
  {
    var c1 := c.(pending := map[tid := Message(tid, text)]);
    EnqueueGoes(g, c, tid, text);
    Step(g, slots, c, TestFull(tid, text), c1);
    Step(g, slots, c1, Enter(tid), Next(g, c1, Enter(tid)));
    Step(g, slots, Next(g, c1, Enter(tid)), Insert(tid), Enqueued(c, Message(tid, text)));
  }

  // ------------------------------------------------------------ a filled queue

  /** What user 0 has said so far. */
  function Said(texts: seq<string>): (r: seq<Stamped>)
    ensures |r| == |texts|
  {
    seq(|texts|, k requires 0 <= k < |texts| => Stamped(Message(0, texts[k]), k))
  }

  /** `n` clients at the start, and `texts` enqueued by the first of them. */
  function Filled(slots: seq<Stamped>, n: nat, texts: seq<string>): Chat
    requires |texts| <= |slots|
  {
    Start(slots).(ring := Ring(if texts == [] then -1 else 0, |texts| - 1, Said(texts) + slots[|texts|..]),
                  clients := seq(n, _ => []), joins := seq(n, _ => Joined(0, false)), accepted := Said(texts))
  }

  lemma {:induction false} ClientsConnect(g: Guard, slots: seq<Stamped>, n: nat)
    requires |slots| > 0 && n <= MAX_NUM_CLIENT
    ensures Reachable(g, slots, Filled(slots, n, []))
  {
    if n == 0 {
      StartReachable(g, slots);
      assert Said([]) + slots[0..] == slots;
      assert Filled(slots, 0, []) == Start(slots);
    } else {
      ClientsConnect(g, slots, n - 1);
      var c := Filled(slots, n - 1, []);
      assert c.clients + [[]] == Filled(slots, n, []).clients;
      assert c.joins + [Joined(0, false)] == Filled(slots, n, []).joins;
      Step(g, slots, c, Connect, Filled(slots, n, []));
    }
  }

  lemma FilledOneMore(slots: seq<Stamped>, n: nat, texts: seq<string>, text: string)
    requires |texts| < |slots|
    ensures Enqueued(Filled(slots, n, texts), Message(0, text)) == Filled(slots, n, texts + [text])
  {
    var k, s := |texts|, Stamped(Message(0, text), |texts|);
    NextSlot(k - 1, |slots|);
    assert Said(texts + [text]) == Said(texts) + [s];
    assert (Said(texts) + slots[k..])[k := s] == Said(texts) + [s] + slots[k + 1..];
  }

  /** Either test lets every message in up to the capacity. */
  lemma {:induction false} FillsUp(g: Guard, slots: seq<Stamped>, n: nat, texts: seq<string>)
    requires |slots| >= 2 && 0 < n <= MAX_NUM_CLIENT && |texts| <= |slots|
    ensures Reachable(g, slots, Filled(slots, n, texts))
  {
    if texts == [] {
      ClientsConnect(g, slots, n);
    } else {
      var before, last := texts[..|texts| - 1], texts[|texts| - 1];
      FillsUp(g, slots, n, before);
      NextSlot(|before| - 1, |slots|);
      Enqueue(g, slots, Filled(slots, n, before), 0, last);
      FilledOneMore(slots, n, before, last);
      assert before + [last] == texts;
    }
  }

  /** The sender takes the first message of a queue of at least two. */
  function Taken(c: Chat): Chat
    requires 0 <= c.ring.front < |c.ring.slots|
  {
    c.(ring := RingModel.Remove(c.ring), sender := Sending(c.ring.front, 0), dequeued := c.dequeued + [Front(c.ring)])
  }

  lemma SenderTakes(g: Guard, slots: seq<Stamped>, n: nat, texts: seq<string>)
    requires |slots| >= 2 && 0 < n <= MAX_NUM_CLIENT && 2 <= |texts| <= |slots|
    ensures Reachable(g, slots, Taken(Filled(slots, n, texts)))
  {
    var c := Filled(slots, n, texts);
    FillsUp(g, slots, n, texts);
    Step(g, slots, c, TestEmpty, c.(sender := Locking(false)));
    Step(g, slots, c.(sender := Locking(false)), Remove, Taken(c));
  }

  // -------------------------------------------------- the sender's early test

  /** One client, whose first message is being enqueued. */
  function Beginning(slots: seq<Stamped>, m: Message): Chat {
    Start(slots).(clients := [[]], joins := [Joined(0, false)],
                  lock := Held(0), pending := map[0 := m], ring := Ring(0, -1, slots))
  }

  lemma BeginningReachable(g: Guard, slots: seq<Stamped>, text: string)
    requires |slots| >= 2
    ensures Reachable(g, slots, Beginning(slots, Message(0, text)))
  {
    ClientsConnect(g, slots, 1);
    var c, c2 := Filled(slots, 1, []), Beginning(slots, Message(0, text));
    var c1 := c.(pending := map[0 := Message(0, text)]);
    assert Said([]) + slots[0..] == slots && c.clients == [[]] && c.joins == [Joined(0, false)];
    NextSlot(-1, |slots|);
    Step(g, slots, c, TestFull(0, text), c1);
    Step(g, slots, c1, Enter(0), c2);
  }

  /** After the enqueue and a removal of what it enqueued. */
  function Undone(slots: seq<Stamped>, m: Message): Chat
    requires |slots| >= 2
  {
    Beginning(slots, m).(lock := Free, pending := map[], ring := Ring(1, 0, slots[0 := Stamped(m, 0)]),
                         sender := Sending(0, 0), accepted := [Stamped(m, 0)], dequeued := [Stamped(m, 0)],
                         underruns := 1)
  }

  lemma BeginningGoesOn(g: Guard, slots: seq<Stamped>, m: Message)
    requires |slots| >= 2
    ensures var c := Beginning(slots, m);
            var c1 := c.(sender := Locking(true));
            var c2 := Next(g, c1, Insert(0));
            Goes(g, c, TestEmpty, c1) && Goes(g, c1, Insert(0), c2) && Goes(g, c2, Remove, Undone(slots, m))
  {
    NextSlot(-1, |slots|);
    NextSlot(0, |slots|);
    assert map[0 := m] - {0} == map[] && [] + [Stamped(m, 0)] == [Stamped(m, 0)];
  }

  lemma UndoneLooksFull(slots: seq<Stamped>, m: Message)
    requires |slots| >= 2
    ensures Valid(Undone(slots, m).ring) && Contents(Undone(slots, m).ring) == slots[1..] + [Stamped(m, 0)]
  {
    var r := Undone(slots, m).ring;
    assert Count(r) == |slots|;
    assert forall k | 0 <= k < |slots| :: r.slots[Place(r, k)] == (slots[1..] + [Stamped(m, 0)])[k];
  }

  /** Inside the first enqueue every test reports a queue both full and not
      empty. A sender that tests there goes on to remove the only message, and
      the queue is left looking full of slots never written. */
  lemma HalfwayTestUnderruns(g: Guard, slots: seq<Stamped>, text: string)
    requires |slots| >= 2
    ensures Full(g, Beginning(slots, Message(0, text)).ring) && !Empty(Beginning(slots, Message(0, text)).ring)
    ensures exists c ::
              && Reachable(g, slots, c) && c.underruns == 1 && c.overruns == 0
              && c.accepted == c.dequeued == [Stamped(Message(0, text), 0)]
              && Valid(c.ring) && Contents(c.ring) == slots[1..] + c.accepted
  {
    var m := Message(0, text);
    var c := Beginning(slots, m);
    var c1 := c.(sender := Locking(true));
    NextSlot(-1, |slots|);
    BeginningReachable(g, slots, text);
    BeginningGoesOn(g, slots, m);
    Step(g, slots, c, TestEmpty, c1);
    Step(g, slots, c1, Insert(0), Next(g, c1, Insert(0)));
    Step(g, slots, Next(g, c1, Insert(0)), Remove, Undone(slots, m));
    UndoneLooksFull(slots, m);
  }

  // ------------------------------------------------ the receivers' early tests

  lemma OneSlotLeft(g: Guard, slots: seq<Stamped>, texts: seq<string>)
    requires |slots| >= 2 && |texts| == |slots| - 1
    ensures var r := Filled(slots, 2, texts).ring;
            Valid(r) && r.front != -1 && Count(r) == |slots| - 1 && |r.slots| == |slots| && !Full(g, r)
  {
    NextSlot(|slots| - 2, |slots|);
  }

  /** Both receivers have tested. */
  function BothTested(slots: seq<Stamped>, texts: seq<string>, a: string, b: string): Chat
    requires |texts| <= |slots|
  {
    Filled(slots, 2, texts).(pending := map[0 := Message(0, a), 1 := Message(1, b)])
  }

  lemma BothTest(g: Guard, slots: seq<Stamped>, texts: seq<string>, a: string, b: string)
    requires |slots| >= 2 && |texts| == |slots| - 1
    ensures var c := Filled(slots, 2, texts);
            var c1 := c.(pending := map[0 := Message(0, a)]);
            Goes(g, c, TestFull(0, a), c1) && Goes(g, c1, TestFull(1, b), BothTested(slots, texts, a, b))
  {
    OneSlotLeft(g, slots, texts);
    assert map[0 := Message(0, a)][1 := Message(1, b)] == map[0 := Message(0, a), 1 := Message(1, b)];
  }

  lemma BothTestedReachable(g: Guard, slots: seq<Stamped>, texts: seq<string>, a: string, b: string)
    requires |slots| >= 2 && |texts| == |slots| - 1
    ensures Reachable(g, slots, BothTested(slots, texts, a, b))
  {
    var c := Filled(slots, 2, texts);
    FillsUp(g, slots, 2, texts);
    BothTest(g, slots, texts, a, b);
    Step(g, slots, c, TestFull(0, a), c.(pending := map[0 := Message(0, a)]));
    Step(g, slots, c.(pending := map[0 := Message(0, a)]), TestFull(1, b), BothTested(slots, texts, a, b));
  }

  /** The second has inserted after the first. */
  function Overrun(c: Chat, a: Message, b: Message): Chat
    requires |c.ring.slots| > 0
  {
    var x, y := Stamped(a, |c.accepted|), Stamped(b, |c.accepted| + 1);
    c.(ring := RingModel.Insert(RingModel.Insert(c.ring, x), y), pending := map[], accepted := c.accepted + [x] + [y],
       overruns := c.overruns + 1)
  }

  lemma BothInsert(g: Guard, c: Chat, a: Message, b: Message)
    requires |c.ring.slots| >= 2 && c.lock.Free? && c.pending == map[0 := a, 1 := b]
    requires Valid(c.ring) && c.ring.front != -1 && Count(c.ring) == |c.ring.slots| - 1
    ensures var c1 := Next(g, c, Enter(0));
            var c2 := Next(g, c1, Insert(0));
            var c3 := Next(g, c2, Enter(1));
            && Goes(g, c, Enter(0), c1) && Goes(g, c1, Insert(0), c2) && Goes(g, c2, Enter(1), c3)
            && Goes(g, c3, Insert(1), Overrun(c, a, b))
    ensures var r := Overrun(c, a, b).ring; Valid(r) && Contents(r) == [Stamped(b, |c.accepted| + 1)]
  {
    var x, y := Stamped(a, |c.accepted|), Stamped(b, |c.accepted| + 1);
    InsertAppends(c.ring, x);
    CountIsLength(c.ring);
    CountIsLength(RingModel.Insert(c.ring, x));
    InsertOverruns(RingModel.Insert(c.ring, x), y);
    assert c.pending - {0} == map[1 := b] && map[1 := b] - {1} == map[];
  }

  lemma FourSteps(g: Guard, slots: seq<Stamped>, c: Chat, e1: Event, e2: Event, e3: Event, e4: Event, c': Chat)
    requires |slots| > 0 && |c.ring.slots| > 0 && Reachable(g, slots, c)
    requires Goes(g, c, e1, Next(g, c, e1))
    requires Goes(g, Next(g, c, e1), e2, Next(g, Next(g, c, e1), e2))
    requires Goes(g, Next(g, Next(g, c, e1), e2), e3, Next(g, Next(g, Next(g, c, e1), e2), e3))
    requires Goes(g, Next(g, Next(g, Next(g, c, e1), e2), e3), e4, c')
    ensures Reachable(g, slots, c')
  {
    var c1 := Next(g, c, e1);
    var c2 := Next(g, c1, e2);
    var c3 := Next(g, c2, e3);
    Step(g, slots, c, e1, c1);
    Step(g, slots, c1, e2, c2);
    Step(g, slots, c2, e3, c3);
    Step(g, slots, c3, e4, c');
  }

  /** Two receivers that both test with one slot free overrun the queue, with the
      modulo and without: only the last message is left of a full queue. */
  lemma TwoReceiversOverrun(g: Guard, slots: seq<Stamped>, texts: seq<string>, a: string, b: string)
    requires |slots| >= 2 && |texts| == |slots| - 1
    ensures exists c ::
              && Reachable(g, slots, c) && c.overruns == 1 && c.underruns == 0 && c.dequeued == []
              && |c.accepted| == |slots| + 1
              && Valid(c.ring) && Contents(c.ring) == [Stamped(Message(1, b), |slots|)]
  {
    OneSlotLeft(g, slots, texts);
    BothInsert(g, BothTested(slots, texts, a, b), Message(0, a), Message(1, b));
    OverrunReachable(g, slots, texts, a, b);
  }

  lemma OverrunReachable(g: Guard, slots: seq<Stamped>, texts: seq<string>, a: string, b: string)
    requires |slots| >= 2 && |texts| == |slots| - 1
    ensures Reachable(g, slots, Overrun(BothTested(slots, texts, a, b), Message(0, a), Message(1, b)))
  {
    var c := BothTested(slots, texts, a, b);
    OneSlotLeft(g, slots, texts);
    BothInsert(g, c, Message(0, a), Message(1, b));
    BothTestedReachable(g, slots, texts, a, b);
    FourSteps(g, slots, c, Enter(0), Insert(0), Enter(1), Insert(1), Overrun(c, Message(0, a), Message(1, b)));
  }

  // ------------------------------------------------- the overwritten broadcast

  /** The sender has taken the first message of a full queue. */
  lemma RoomAgain(g: Guard, slots: seq<Stamped>, n: nat, texts: seq<string>)
    requires |slots| >= 2 && |texts| == |slots|
    ensures var c := Taken(Filled(slots, n, texts));
            && c.ring == Ring(1, |slots| - 1, Said(texts)) && c.sender == Sending(0, 0)
            && !Full(g, c.ring) && !Halfway(c.ring) && Count(c.ring) < |slots|
            && c.dequeued == [Stamped(Message(0, texts[0]), 0)] && Said(texts)[0] == c.dequeued[0]
  {
    assert Said(texts) + slots[|texts|..] == Said(texts);
    NextSlot(0, |slots|);
    NextSlot(|slots| - 1, |slots|);
  }

  /** The next message goes into the slot that is being sent from. */
  lemma Overwrites(c: Chat, m: Message)
    requires |c.ring.slots| >= 2 && c.ring.front == 1 && c.ring.rear == |c.ring.slots| - 1
    ensures var s := Stamped(m, |c.accepted|);
            Enqueued(c, m).ring == Ring(1, 0, c.ring.slots[0 := s]) && Enqueued(c, m).overruns == c.overruns
  {
    NextSlot(|c.ring.slots| - 1, |c.ring.slots|);
  }

  /** The next send goes to client `id`, the last one connected. */
  lemma SendGoes(g: Guard, c: Chat, before: seq<seq<Stamped>>, x: Stamped)
    requires |c.ring.slots| > 0 && c.sender == Sending(0, |before|) && |before| + 1 < MAX_NUM_CLIENT
    requires c.clients == before + [[]] && c.ring.slots[0] == x
    ensures Goes(g, c, Send, c.(clients := before + [[x]], sender := Sending(0, |before| + 1)))
  {
    assert c.clients[|before|] == [] && [] + [x] == [x];
    assert c.clients[|before| := [x]] == before + [[x]];
  }

  /** The queue has filled up again while the sender is about to send. */
  function FullAgain(slots: seq<Stamped>, texts: seq<string>, late: string): Chat
    requires |slots| >= 2 && |texts| == |slots|
  {
    Enqueued(Taken(Filled(slots, 1, texts)), Message(0, late))
  }

  lemma FullAgainReachable(g: Guard, slots: seq<Stamped>, texts: seq<string>, late: string)
    requires |slots| >= 2 && |texts| == |slots|
    ensures Reachable(g, slots, FullAgain(slots, texts, late))
  {
    RoomAgain(g, slots, 1, texts);
    SenderTakes(g, slots, 1, texts);
    Enqueue(g, slots, Taken(Filled(slots, 1, texts)), 0, late);
  }

  lemma FullAgainGoes(g: Guard, slots: seq<Stamped>, texts: seq<string>, late: string)
    requires |slots| >= 2 && |texts| == |slots|
    ensures var c, x := FullAgain(slots, texts, late), Stamped(Message(0, late), |slots|);
            && Faultless(c) && c.dequeued == [Stamped(Message(0, texts[0]), 0)]
            && Goes(g, c, Send, c.(clients := [[x]], sender := Sending(0, 1)))
  {
    var c, x := Taken(Filled(slots, 1, texts)), Stamped(Message(0, late), |slots|);
    RoomAgain(g, slots, 1, texts);
    Overwrites(c, Message(0, late));
    var none: seq<seq<Stamped>> := [];
    assert c.clients == none + [[]] && none + [[x]] == [[x]];
    SendGoes(g, FullAgain(slots, texts, late), none, x);
  }

  /** A queue full to capacity, whose first message the sender has taken and one
      message more has overwritten, all without a fault: the only client is sent
      the newest message in place of the first. */
  lemma FullQueueReachesWire(g: Guard, slots: seq<Stamped>, texts: seq<string>, late: string)
    requires |slots| >= 2 && |texts| == |slots|
    ensures exists c ::
              && Reachable(g, slots, c) && Faultless(c)
              && c.dequeued == [Stamped(Message(0, texts[0]), 0)]
              && c.clients == [[Stamped(Message(0, late), |slots|)]]
  {
    var c, x := FullAgain(slots, texts, late), Stamped(Message(0, late), |slots|);
    FullAgainReachable(g, slots, texts, late);
    FullAgainGoes(g, slots, texts, late);
    Step(g, slots, c, Send, c.(clients := [[x]], sender := Sending(0, 1)));
  }

  /** The first of two clients has been sent the first message of a full queue. */
  function OneServed(slots: seq<Stamped>, texts: seq<string>): Chat
    requires |slots| >= 2 && |texts| == |slots|
  {
    Taken(Filled(slots, 2, texts)).(clients := [[Stamped(Message(0, texts[0]), 0)], []], sender := Sending(0, 1))
  }

  lemma OneServedReachable(g: Guard, slots: seq<Stamped>, texts: seq<string>)
    requires |slots| >= 2 && |texts| == |slots|
    ensures Reachable(g, slots, OneServed(slots, texts))
  {
    var c, first := Taken(Filled(slots, 2, texts)), Stamped(Message(0, texts[0]), 0);
    RoomAgain(g, slots, 2, texts);
    SenderTakes(g, slots, 2, texts);
    assert c.clients == [[], []] && c.clients[0 := [] + [first]] == [[first], []];
    Step(g, slots, c, Send, OneServed(slots, texts));
  }

  lemma OneServedGoes(g: Guard, slots: seq<Stamped>, texts: seq<string>, late: string)
    requires |slots| >= 2 && |texts| == |slots|
    ensures var c, first := OneServed(slots, texts), Stamped(Message(0, texts[0]), 0);
            var x := Stamped(Message(0, late), |slots|);
            var c1 := Enqueued(c, Message(0, late));
            && !Full(g, c.ring) && c.ring.front == 1 && c.ring.rear == |slots| - 1
            && Faultless(c1) && c1.dequeued == [first]
            && Goes(g, c1, Send, c1.(clients := [[first]] + [[x]], sender := Sending(0, 2)))
  {
    var c, x := OneServed(slots, texts), Stamped(Message(0, late), |slots|);
    RoomAgain(g, slots, 2, texts);
    Overwrites(c, Message(0, late));
    assert c.clients == [c.clients[0]] + [[]];
    SendGoes(g, Enqueued(c, Message(0, late)), [c.clients[0]], x);
  }

  /** Two clients are sent different messages in one broadcast, because the queue
      fills up between the two sends. */
  lemma FillsUpBetweenSends(g: Guard, slots: seq<Stamped>, texts: seq<string>, late: string)
    requires |slots| >= 2 && |texts| == |slots|
    ensures exists c ::
              && Reachable(g, slots, c) && Faultless(c)
              && c.dequeued == [Stamped(Message(0, texts[0]), 0)]
              && c.clients == [[Stamped(Message(0, texts[0]), 0)]] + [[Stamped(Message(0, late), |slots|)]]
  {
    var c, first, x := OneServed(slots, texts), Stamped(Message(0, texts[0]), 0), Stamped(Message(0, late), |slots|);
    var c1 := Enqueued(c, Message(0, late));
    OneServedReachable(g, slots, texts);
    OneServedGoes(g, slots, texts, late);
    Enqueue(g, slots, c, 0, late);
    Step(g, slots, c1, Send, c1.(clients := [[first]] + [[x]], sender := Sending(0, 2)));
  }

  // ------------------------------------------------------ the missed broadcast

  /** The rest of a broadcast, past the last client. */
  lemma {:induction false} IdleSends(g: Guard, slots: seq<Stamped>, c: Chat)
    requires |slots| > 0 && |c.ring.slots| > 0 && Reachable(g, slots, c)
    requires c.sender.Sending? && |c.clients| <= c.sender.next < MAX_NUM_CLIENT
    ensures Reachable(g, slots, c.(sender := Polling))
    decreases MAX_NUM_CLIENT - c.sender.next
  {
    Step(g, slots, c, Send, Next(g, c, Send));
    if c.sender.next + 1 < MAX_NUM_CLIENT {
      IdleSends(g, slots, Next(g, c, Send));
    }
  }

  /** A broadcast to one client is past the next place. */
  function PastNext(slots: seq<Stamped>, a: string, b: string): Chat
    requires |slots| >= 2
  {
    Taken(Filled(slots, 1, [a, b])).(clients := [[Stamped(Message(0, a), 0)]], sender := Sending(0, 2))
  }

  lemma PastNextGoes(g: Guard, slots: seq<Stamped>, a: string, b: string)
    requires |slots| >= 2
    ensures var c := Taken(Filled(slots, 1, [a, b]));
            var c1 := PastNext(slots, a, b).(sender := Sending(0, 1));
            && Goes(g, c, Send, c1) && Goes(g, c1, Send, PastNext(slots, a, b))
            && Faultless(c1) && c1.ring.slots[0] == Stamped(Message(0, a), 0)
  {
    var c, none: seq<seq<Stamped>>, first := Taken(Filled(slots, 1, [a, b])), [], Stamped(Message(0, a), 0);
    assert c.ring.slots[0] == Said([a, b])[0] == first;
    assert c.clients == none + [[]] && none + [[first]] == [[first]];
    SendGoes(g, c, none, first);
  }

  lemma PastNextReachable(g: Guard, slots: seq<Stamped>, a: string, b: string)
    requires |slots| >= 2
    ensures Reachable(g, slots, PastNext(slots, a, b))
  {
    var c, c1 := Taken(Filled(slots, 1, [a, b])), PastNext(slots, a, b).(sender := Sending(0, 1));
    SenderTakes(g, slots, 1, [a, b]);
    PastNextGoes(g, slots, a, b);
    Step(g, slots, c, Send, c1);
    Step(g, slots, c1, Send, PastNext(slots, a, b));
  }

  /** Two clients connect, and the second of them is served. */
  function PassedBy(slots: seq<Stamped>, a: string, b: string): Chat
    requires |slots| >= 2
  {
    var c, first := PastNext(slots, a, b), Stamped(Message(0, a), 0);
    Next(Wrapped, Next(Wrapped, c, Connect), Connect).(clients := [[first], []] + [[first]], sender := Sending(0, 3))
  }

  lemma PassedByGoes(g: Guard, slots: seq<Stamped>, a: string, b: string)
    requires |slots| >= 2
    ensures var c := PastNext(slots, a, b);
            var c1 := Next(g, c, Connect);
            var c2 := Next(g, c1, Connect);
            && Goes(g, c, Connect, c1) && Goes(g, c1, Connect, c2) && Goes(g, c2, Send, PassedBy(slots, a, b))
            && Faultless(c2)
  {
    var c, first := PastNext(slots, a, b), Stamped(Message(0, a), 0);
    var c2 := Next(g, Next(g, c, Connect), Connect);
    PastNextGoes(g, slots, a, b);
    assert c2.clients == [[first], []] + [[]];
    SendGoes(g, c2, [[first], []], first);
  }

  lemma PassedByReachable(g: Guard, slots: seq<Stamped>, a: string, b: string)
    requires |slots| >= 2
    ensures Reachable(g, slots, PassedBy(slots, a, b))
  {
    var c := PastNext(slots, a, b);
    var c1 := Next(g, c, Connect);
    PastNextReachable(g, slots, a, b);
    PassedByGoes(g, slots, a, b);
    Step(g, slots, c, Connect, c1);
    Step(g, slots, c1, Connect, Next(g, c1, Connect));
    Step(g, slots, Next(g, c1, Connect), Send, PassedBy(slots, a, b));
  }

  /** A broadcast is past the next place when two clients connect, and then serves
      the second of them but not the first: after it, the earlier client has been
      sent nothing and the later one a message. */
  lemma BroadcastPassesByFirst(g: Guard, slots: seq<Stamped>, a: string, b: string)
    requires |slots| >= 2
    ensures exists c ::
              && Reachable(g, slots, c) && Faultless(c) && c.sender.Polling? && |c.clients| == 3
              && c.clients[1] == [] && c.clients[2] == [Stamped(Message(0, a), 0)]
              && !EndsWith(c.clients[1], c.clients[2])
  {
    PassedByReachable(g, slots, a, b);
    PassedByGoes(g, slots, a, b);
    IdleSends(g, slots, PassedBy(slots, a, b));
  }
}
