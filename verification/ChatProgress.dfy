/** The chat server gets on: from every state that a faultless run leads to, its
    sender can bring all messages but the newest to every client, and a receiver
    whose queue does not look full can get its message in. */
module ChatProgress {
  import opened RingModel
  import opened ChatSystem
  import opened ChatBroadcast

  /** Some continuation of the run `events` leads to `c`. */
  ghost predicate Leads(g: Guard, slots: seq<Stamped>, events: seq<Event>, c: Chat)
    requires |slots| > 0
  {
    exists more :: IsRun(g, slots, events + more) && After(g, slots, events + more) == c
  }

  lemma LeadsHere(g: Guard, slots: seq<Stamped>, events: seq<Event>)
    requires |slots| > 0 && IsRun(g, slots, events)
    ensures Leads(g, slots, events, After(g, slots, events))
  {
    assert events + [] == events;
  }

  lemma OneMore(g: Guard, slots: seq<Stamped>, run: seq<Event>, e: Event)
    requires |slots| > 0 && IsRun(g, slots, run) && Can(After(g, slots, run), e)
    ensures IsRun(g, slots, run + [e]) && After(g, slots, run + [e]) == Next(g, After(g, slots, run), e)
  {
    assert (run + [e])[..|run|] == run;
  }

  lemma Step(g: Guard, slots: seq<Stamped>, events: seq<Event>, c: Chat, e: Event)
    requires |slots| > 0 && Leads(g, slots, events, c) && Can(c, e)
    ensures |c.ring.slots| == |slots| && Leads(g, slots, events, Next(g, c, e))
  {
    var more :| IsRun(g, slots, events + more) && After(g, slots, events + more) == c;
    OneMore(g, slots, events + more, e);
    assert events + (more + [e]) == (events + more) + [e];
  }

  lemma InvariantsAt(g: Guard, slots: seq<Stamped>, events: seq<Event>, c: Chat)
    requires |slots| >= 2 && Leads(g, slots, events, c) && Faultless(c)
    ensures QueueInv(c) && CourseInv(c) && |c.ring.slots| == |slots|
  {
    var more :| IsRun(g, slots, events + more) && After(g, slots, events + more) == c;
    CourseHolds(g, slots, events + more);
  }

  // ---------------------------------------------------------------- the sender

  /** Nothing but the sender's part has changed, and no fault has happened. */
  ghost predicate SenderOnly(c: Chat, c': Chat) {
    && c'.accepted == c.accepted && c'.pending == c.pending && c'.lock == c.lock
    && c'.overruns == c.overruns && c'.underruns == c.underruns
    && |c'.clients| == |c.clients| && c'.joins == c.joins
    && c.dequeued <= c'.dequeued
  }

  /** A broadcast under way can be brought to its end. */
  lemma {:induction false} BroadcastEnds(g: Guard, slots: seq<Stamped>, events: seq<Event>, c: Chat) returns (c': Chat)
    requires |slots| >= 2 && Leads(g, slots, events, c) && Faultless(c) && c.sender.Sending?
    ensures Leads(g, slots, events, c') && SenderOnly(c, c')
    ensures c'.sender == Polling && c'.ring == c.ring && c'.dequeued == c.dequeued
    decreases MAX_NUM_CLIENT - c.sender.next
  {
    InvariantsAt(g, slots, events, c);
    Step(g, slots, events, c, Send);
    c' := Next(g, c, Send);
    if c'.sender.Sending? {
      c' := BroadcastEnds(g, slots, events, c');
    }
  }

  /** The test that the sender has passed, if any, still holds. */
  predicate TestHolds(c: Chat) {
    c.sender.Locking? ==> !Empty(c.ring)
  }

  /** A sender that has passed its test can take the oldest message and send it. */
  lemma MessageGoesOut(g: Guard, slots: seq<Stamped>, events: seq<Event>, c: Chat) returns (c': Chat)
    requires |slots| >= 2 && Leads(g, slots, events, c) && Faultless(c)
    requires c.lock.Free? && c.sender.Locking? && !Empty(c.ring)
    ensures Leads(g, slots, events, c') && SenderOnly(c, c')
    ensures c'.sender == Polling && |c'.dequeued| == |c.dequeued| + 1
  {
    InvariantsAt(g, slots, events, c);
    RemoveOccupied(c);
    Step(g, slots, events, c, Remove);
    c' := BroadcastEnds(g, slots, events, Next(g, c, Remove));
  }

  lemma NothingHeldButNewest(c: Chat)
    requires QueueInv(c) && c.lock.Free? && Empty(c.ring)
    ensures c.dequeued == if c.accepted == [] then [] else c.accepted[..|c.accepted| - 1]
  {
    FullMeansAllOccupied(c.ring);
    CountIsLength(c.ring);
  }

  lemma StillToCome(c: Chat)
    requires QueueInv(c)
    ensures |c.dequeued| <= |c.accepted|
  {
  }

  lemma {:induction false} Drains(g: Guard, slots: seq<Stamped>, events: seq<Event>, c: Chat) returns (c': Chat)
    requires |slots| >= 2 && Leads(g, slots, events, c) && Faultless(c) && c.lock.Free? && TestHolds(c)
    ensures Leads(g, slots, events, c') && SenderOnly(c, c')
    ensures c'.sender == Polling && Empty(c'.ring)
    decreases |c.accepted| - |c.dequeued|, match c.sender case Sending(_, _) => 2 case Polling => 1 case Locking(_) => 0
  {
    InvariantsAt(g, slots, events, c);
    match c.sender
    case Sending(_, _) =>
      c' := BroadcastEnds(g, slots, events, c);
      c' := Drains(g, slots, events, c');
    case Locking(_) =>
      StillToCome(c);
      c' := MessageGoesOut(g, slots, events, c);
      InvariantsAt(g, slots, events, c');
      StillToCome(c');
      c' := Drains(g, slots, events, c');
    case Polling =>
      if Empty(c.ring) {
        c' := c;
      } else {
        Step(g, slots, events, c, TestEmpty);
        c' := Drains(g, slots, events, Next(g, c, TestEmpty));
      }
  }

  /** The queue holds its newest message only, and every client has had its turn
      with all the others since it connected. */
  ghost predicate AllOut(c: Chat) {
    && c.sender == Polling
    && c.dequeued == (if c.accepted == [] then [] else c.accepted[..|c.accepted| - 1])
    && |c.joins| == |c.clients|
    && forall id | 0 <= id < |c.clients| :: |c.clients[id]| == |c.dequeued| - Due(c.joins[id])
  }

  lemma DrainedIsOut(c: Chat)
    requires QueueInv(c) && CourseInv(c) && c.lock.Free? && c.sender == Polling && Empty(c.ring)
    ensures AllOut(c)
  {
    NothingHeldButNewest(c);
    forall id | 0 <= id < |c.clients| ensures |c.clients[id]| == |c.dequeued| - Due(c.joins[id]) {
      CourseLength(c, id);
    }
  }

  /** The run goes on, with nothing more accepted and no fault, until all messages
      but the newest are out. */
  ghost predicate GetsThrough(g: Guard, slots: seq<Stamped>, events: seq<Event>)
    requires |slots| > 0
  {
    exists more ::
      && IsRun(g, slots, events + more) && Faultless(After(g, slots, events + more))
      && After(g, slots, events + more).accepted == After(g, slots, events).accepted
      && AllOut(After(g, slots, events + more))
  }

  lemma GoodTestGetsThrough(g: Guard, slots: seq<Stamped>, events: seq<Event>)
    requires |slots| >= 2 && IsRun(g, slots, events) && Faultless(After(g, slots, events))
    requires After(g, slots, events).lock.Free? && TestHolds(After(g, slots, events))
    ensures GetsThrough(g, slots, events)
  {
    LeadsHere(g, slots, events);
    var c' := Drains(g, slots, events, After(g, slots, events));
    InvariantsAt(g, slots, events, c');
    DrainedIsOut(c');
  }

  /** The sender has taken the newest message, or will as soon as it moves. */
  predicate Doomed(c: Chat) {
    c.underruns > 0 || (c.sender.Locking? && Empty(c.ring) && 0 <= c.ring.front < |c.ring.slots|)
  }

  lemma StepStaysDoomed(g: Guard, c: Chat, e: Event)
    requires |c.ring.slots| > 0 && Doomed(c) && Can(c, e) && |Next(g, c, e).accepted| <= |c.accepted|
    ensures Doomed(Next(g, c, e))
  {
  }

  lemma AcceptedOnlyGrows(g: Guard, c: Chat, e: Event)
    requires |c.ring.slots| > 0
    ensures |c.accepted| <= |Next(g, c, e).accepted|
  {
  }

  lemma {:induction false} StaysDoomed(g: Guard, slots: seq<Stamped>, events: seq<Event>, more: seq<Event>)
    requires |slots| > 0 && IsRun(g, slots, events + more) && Doomed(After(g, slots, events))
    ensures |After(g, slots, events).accepted| <= |After(g, slots, events + more).accepted|
    ensures |After(g, slots, events + more).accepted| == |After(g, slots, events).accepted| ==>
              Doomed(After(g, slots, events + more))
  {
    if more == [] {
      assert events + more == events;
    } else {
      var init, e := more[..|more| - 1], more[|more| - 1];
      assert (events + more)[..|events + more| - 1] == events + init && (events + more)[|events + init|] == e;
      StaysDoomed(g, slots, events, init);
      AcceptedOnlyGrows(g, After(g, slots, events + init), e);
      if |After(g, slots, events + more).accepted| == |After(g, slots, events).accepted| {
        StepStaysDoomed(g, After(g, slots, events + init), e);
      }
    }
  }

  lemma VoidTestDoesNot(g: Guard, slots: seq<Stamped>, events: seq<Event>)
    requires |slots| >= 2 && IsRun(g, slots, events) && Faultless(After(g, slots, events))
    requires After(g, slots, events).lock.Free? && !TestHolds(After(g, slots, events))
    ensures !GetsThrough(g, slots, events)
  {
    QueueHolds(g, slots, events);
    RemoveOccupied(After(g, slots, events));
    forall more | IsRun(g, slots, events + more)
      ensures |After(g, slots, events + more).accepted| == |After(g, slots, events).accepted| ==>
                Doomed(After(g, slots, events + more))
    {
      StaysDoomed(g, slots, events, more);
    }
  }

  /** Every faultless run that leaves the lock free can go on until all messages
      but the newest have been dequeued and every client has had its turn with all
      of them since it connected, if and only if its sender, should it have passed
      its test, would pass it again. */
  lemma SenderGetsThroughIff(g: Guard, slots: seq<Stamped>, events: seq<Event>)
    requires |slots| >= 2 && IsRun(g, slots, events) && Faultless(After(g, slots, events))
    requires After(g, slots, events).lock.Free?
    ensures GetsThrough(g, slots, events) <==> TestHolds(After(g, slots, events))
  {
    if TestHolds(After(g, slots, events)) {
      GoodTestGetsThrough(g, slots, events);
    } else {
      VoidTestDoesNot(g, slots, events);
    }
  }

  // ------------------------------------------------------------- the receivers

  function GotIn(g: Guard, c: Chat, tid: int, text: string): Chat
    requires |c.ring.slots| > 0
  {
    Next(g, Next(g, Next(g, c, TestFull(tid, text)), Enter(tid)), Insert(tid))
  }

  lemma GettingIn(g: Guard, c: Chat, tid: int, text: string)
    requires |c.ring.slots| > 0 && c.lock.Free? && Can(c, TestFull(tid, text)) && !Full(g, c.ring)
    ensures var c1 := Next(g, c, TestFull(tid, text));
            Can(c1, Enter(tid)) && Can(Next(g, c1, Enter(tid)), Insert(tid))
    ensures var c' := GotIn(g, c, tid, text);
            && c'.accepted == c.accepted + [Stamped(Message(tid, text), |c.accepted|)]
            && c'.dequeued == c.dequeued && c'.clients == c.clients && c'.pending == c.pending
            && c'.sender == c.sender && c'.lock.Free?
  {
    assert c.pending[tid := Message(tid, text)] - {tid} == c.pending;
  }

  lemma GettingInLeads(g: Guard, slots: seq<Stamped>, events: seq<Event>, c: Chat, tid: int, text: string)
    requires |slots| > 0 && Leads(g, slots, events, c) && |c.ring.slots| == |slots|
    requires c.lock.Free? && Can(c, TestFull(tid, text)) && !Full(g, c.ring)
    ensures Leads(g, slots, events, GotIn(g, c, tid, text))
  {
    var c1 := Next(g, c, TestFull(tid, text));
    GettingIn(g, c, tid, text);
    Step(g, slots, events, c, TestFull(tid, text));
    Step(g, slots, events, c1, Enter(tid));
    Step(g, slots, events, Next(g, c1, Enter(tid)), Insert(tid));
  }

  /** A receiver that finds the queue not full can get its message in, behind all
      that were accepted before. */
  lemma ReceiverGetsIn(g: Guard, slots: seq<Stamped>, events: seq<Event>, tid: int, text: string, c: Chat)
    requires |slots| > 0 && IsRun(g, slots, events) && c == After(g, slots, events)
    requires c.lock.Free? && Can(c, TestFull(tid, text)) && !Full(g, c.ring)
    ensures exists more ::
              && IsRun(g, slots, events + more)
              && After(g, slots, events + more).accepted == c.accepted + [Stamped(Message(tid, text), |c.accepted|)]
              && After(g, slots, events + more).dequeued == c.dequeued
              && After(g, slots, events + more).clients == c.clients
  {
    LeadsHere(g, slots, events);
    GettingIn(g, c, tid, text);
    GettingInLeads(g, slots, events, c, tid, text);
  }
}
