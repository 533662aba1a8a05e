/** What each client of the chat server is sent, message by message: the stream
    of dequeued messages from its connection on, except that a send made while
    every slot is occupied carries the newest message instead, which is the one
    a whole queueful later. */
module ChatBroadcast {
  import opened RingModel
  import opened ChatSystem

  /** The first message of the dequeued stream that a client is due. */
  function Due(j: Joined): int {
    if j.during then j.dequeued - 1 else j.dequeued
  }

  /** How much of the dequeued stream has had its turn with client `id`. */
  function Reached(c: Chat, id: int): int {
    if c.sender.Sending? && c.sender.next <= id then |c.dequeued| - 1 else |c.dequeued|
  }

  /** The next step puts a message on the wire of `id` while every slot is
      occupied: by then the slot being sent from has been overwritten. */
  predicate SendsOverwritten(c: Chat, e: Event, id: int) {
    e.Send? && c.sender.Sending? && c.sender.next == id && 0 <= id < |c.clients| && Count(c.ring) == |c.ring.slots|
  }

  /** How often that happened. */
  function OverwrittenTo(g: Guard, slots: seq<Stamped>, events: seq<Event>, id: int): nat
    requires |slots| > 0
  {
    if events == [] then 0
    else
      var before := events[..|events| - 1];
      OverwrittenTo(g, slots, before, id) +
      if SendsOverwritten(After(g, slots, before), events[|events| - 1], id) then 1 else 0
  }

  /** How many messages of `stream` are out of place if it should begin with the
      message of index `from`. */
  function Strays(stream: seq<Stamped>, from: int): nat {
    if stream == [] then 0
    else
      var last := |stream| - 1;
      Strays(stream[..last], from) + if stream[last].index != from + last then 1 else 0
  }

  /** Item `d` of the dequeued stream, or what overwrote it. */
  ghost predicate ItemOrLater(s: Stamped, d: int, accepted: seq<Stamped>, capacity: nat) {
    && (s.index == d || s.index == d + capacity)
    && s.index < |accepted| && s == accepted[s.index]
  }

  /** `stream` has one message for each of the dequeued ones due to `j`, up to
      `upto`. */
  ghost predicate IsCourse(stream: seq<Stamped>, accepted: seq<Stamped>, j: Joined, upto: int, capacity: nat) {
    && 0 <= Due(j) <= upto && |stream| == upto - Due(j)
    && forall k | 0 <= k < |stream| :: ItemOrLater(stream[k], Due(j) + k, accepted, capacity)
  }

  /** Client `id` in this broadcast was sent what had overwritten the message. */
  predicate GotLater(c: Chat, id: nat)
    requires id < |c.clients|
  {
    c.clients[id] != [] && c.clients[id][|c.clients[id]| - 1].index != |c.dequeued| - 1
  }

  /** Who has had its turn in the broadcast under way. */
  predicate Served(c: Chat, id: nat)
    requires id < |c.joins|
  {
    c.sender.Sending? && id < c.sender.next && Due(c.joins[id]) < |c.dequeued|
  }

  ghost predicate CourseInv(c: Chat) {
    && |c.joins| == |c.clients| <= MAX_NUM_CLIENT
    && (c.sender.Sending? ==> c.dequeued != [] && c.sender.next < MAX_NUM_CLIENT)
    && (forall id | 0 <= id < |c.joins| :: c.joins[id].dequeued <= |c.dequeued|)
    && (forall i, j | 0 <= i < j < |c.joins| :: c.joins[i].dequeued <= c.joins[j].dequeued)
    && (forall id | 0 <= id < |c.clients| ::
          IsCourse(c.clients[id], c.accepted, c.joins[id], Reached(c, id), |c.ring.slots|))
    && (forall id | 0 <= id < |c.clients| :: Served(c, id) && GotLater(c, id) ==> Count(c.ring) == |c.ring.slots|)
  }

  /** What a send carries, by index. */
  lemma SentItem(c: Chat)
    requires QueueInv(c) && c.sender.Sending?
    ensures c.sender.slot < |c.ring.slots| && Count(c.ring) <= |c.ring.slots|
    ensures var s, d := c.ring.slots[c.sender.slot], |c.dequeued| - 1;
            && ItemOrLater(s, d, c.accepted, |c.ring.slots|)
            && s.index == if Count(c.ring) == |c.ring.slots| then d + |c.ring.slots| else d
  {
    FullMeansAllOccupied(c.ring);
    CountIsLength(c.ring);
    assert c.accepted[|c.dequeued| - 1] == c.dequeued[|c.dequeued| - 1];
  }

  lemma SendKeepsCourse(g: Guard, c: Chat)
    requires QueueInv(c) && CourseInv(c) && c.sender.Sending?
    ensures CourseInv(Next(g, c, Send))
  {
    SentItem(c);
    var c', next := Next(g, c, Send), c.sender.next;
    forall id | 0 <= id < |c'.clients|
      ensures IsCourse(c'.clients[id], c'.accepted, c'.joins[id], Reached(c', id), |c'.ring.slots|)
      ensures Served(c', id) && GotLater(c', id) ==> Count(c'.ring) == |c'.ring.slots|
    {
      assert IsCourse(c.clients[id], c.accepted, c.joins[id], Reached(c, id), |c.ring.slots|);
    }
  }

  lemma RemoveKeepsCourse(g: Guard, c: Chat)
    requires QueueInv(c) && CourseInv(c) && Can(c, Remove)
    ensures CourseInv(Next(g, c, Remove))
  {
    RemoveOccupied(c);
    var c' := Next(g, c, Remove);
    forall id | 0 <= id < |c'.clients|
      ensures IsCourse(c'.clients[id], c'.accepted, c'.joins[id], Reached(c', id), |c'.ring.slots|)
    {
      assert IsCourse(c.clients[id], c.accepted, c.joins[id], Reached(c, id), |c.ring.slots|);
    }
  }

  lemma ConnectKeepsCourse(g: Guard, c: Chat)
    requires |c.ring.slots| > 0 && CourseInv(c) && Can(c, Connect)
    ensures CourseInv(Next(g, c, Connect))
  {
    var c' := Next(g, c, Connect);
    forall id | 0 <= id < |c'.clients|
      ensures IsCourse(c'.clients[id], c'.accepted, c'.joins[id], Reached(c', id), |c'.ring.slots|)
      ensures Served(c', id) && GotLater(c', id) ==> Count(c'.ring) == |c'.ring.slots|
    {
      if id < |c.clients| {
        assert IsCourse(c.clients[id], c.accepted, c.joins[id], Reached(c, id), |c.ring.slots|);
        assert Served(c', id) && GotLater(c', id) ==> Served(c, id) && GotLater(c, id);
      }
    }
  }

  lemma InsertKeepsCourse(g: Guard, c: Chat, tid: int)
    requires QueueInv(c) && CourseInv(c) && Can(c, Insert(tid)) && Count(Settled(c.ring)) < |c.ring.slots|
    ensures CourseInv(Next(g, c, Insert(tid)))
  {
    var c' := Next(g, c, Insert(tid));
    assert c.sender.Sending? ==> !Halfway(c.ring);
    forall id | 0 <= id < |c'.clients|
      ensures IsCourse(c'.clients[id], c'.accepted, c'.joins[id], Reached(c', id), |c'.ring.slots|)
      ensures Served(c', id) && GotLater(c', id) ==> Count(c'.ring) == |c'.ring.slots|
    {
      assert IsCourse(c.clients[id], c.accepted, c.joins[id], Reached(c, id), |c.ring.slots|);
      assert Served(c', id) && GotLater(c', id) ==> Served(c, id) && GotLater(c, id);
    }
  }

  /** The steps that touch neither streams nor slots. */
  lemma QuietKeepsCourse(c: Chat, c': Chat)
    requires CourseInv(c)
    requires c'.clients == c.clients && c'.joins == c.joins && c'.accepted == c.accepted && c'.dequeued == c.dequeued
    requires |c'.ring.slots| == |c.ring.slots| && (c'.sender.Sending? ==> c'.ring == c.ring)
    requires c'.sender == c.sender || (!c'.sender.Sending? && !c.sender.Sending?)
    ensures CourseInv(c')
  {
    forall id | 0 <= id < |c'.clients|
      ensures IsCourse(c'.clients[id], c'.accepted, c'.joins[id], Reached(c', id), |c'.ring.slots|)
      ensures Served(c', id) && GotLater(c', id) ==> Count(c'.ring) == |c'.ring.slots|
    {
      assert IsCourse(c.clients[id], c.accepted, c.joins[id], Reached(c, id), |c.ring.slots|);
      assert Served(c', id) && GotLater(c', id) ==> Served(c, id) && GotLater(c, id);
    }
  }

  lemma StepKeepsCourse(g: Guard, c: Chat, e: Event)
    requires QueueInv(c) && CourseInv(c) && Can(c, e) && Next(g, c, e).overruns == c.overruns
    ensures CourseInv(Next(g, c, e))
  {
    match e
    case Send => SendKeepsCourse(g, c);
    case Remove => RemoveKeepsCourse(g, c);
    case Connect => ConnectKeepsCourse(g, c);
    case Insert(tid) =>
      FullMeansAllOccupied(Settled(c.ring));
      InsertKeepsCourse(g, c, tid);
    case TestEmpty => QuietKeepsCourse(c, Next(g, c, e));
    case Enter(_) => QuietKeepsCourse(c, Next(g, c, e));
    case TestFull(_, _) => QuietKeepsCourse(c, Next(g, c, e));
  }

  lemma {:induction false} CourseHolds(g: Guard, slots: seq<Stamped>, events: seq<Event>)
    requires |slots| >= 2 && IsRun(g, slots, events) && Faultless(After(g, slots, events))
    ensures QueueInv(After(g, slots, events)) && CourseInv(After(g, slots, events))
  {
    QueueHolds(g, slots, events);
    if events != [] {
      var before := events[..|events| - 1];
      FaultsOnlyGrow(g, After(g, slots, before), events[|events| - 1]);
      CourseHolds(g, slots, before);
      StepKeepsCourse(g, After(g, slots, before), events[|events| - 1]);
    }
  }

  // ------------------------------------------------------- how many go astray

  lemma StraysOneMore(stream: seq<Stamped>, s: Stamped, from: int)
    ensures Strays(stream + [s], from) == Strays(stream, from) + if s.index != from + |stream| then 1 else 0
  {
    assert (stream + [s])[..|stream|] == stream;
  }

  lemma {:induction false} NoneStray(stream: seq<Stamped>, from: int)
    ensures Strays(stream, from) == 0 <==> forall k | 0 <= k < |stream| :: stream[k].index == from + k
  {
    if stream != [] {
      NoneStray(stream[..|stream| - 1], from);
    }
  }

  function StraysTo(c: Chat, id: nat): nat {
    if id < |c.clients| && id < |c.joins| then Strays(c.clients[id], Due(c.joins[id])) else 0
  }

  lemma StepCountsStrays(g: Guard, c: Chat, e: Event, id: nat)
    requires QueueInv(c) && CourseInv(c) && Can(c, e)
    ensures StraysTo(Next(g, c, e), id) == StraysTo(c, id) + if SendsOverwritten(c, e, id) then 1 else 0
  {
    if e.Send? && c.sender.next == id < |c.clients| {
      SentItem(c);
      assert IsCourse(c.clients[id], c.accepted, c.joins[id], Reached(c, id), |c.ring.slots|);
      StraysOneMore(c.clients[id], c.ring.slots[c.sender.slot], Due(c.joins[id]));
    }
  }

  lemma {:induction false} StraysAreOverwritten(g: Guard, slots: seq<Stamped>, events: seq<Event>, id: nat)
    requires |slots| >= 2 && IsRun(g, slots, events) && Faultless(After(g, slots, events))
    ensures StraysTo(After(g, slots, events), id) == OverwrittenTo(g, slots, events, id)
  {
    if events != [] {
      var before := events[..|events| - 1];
      FaultsOnlyGrow(g, After(g, slots, before), events[|events| - 1]);
      StraysAreOverwritten(g, slots, before, id);
      CourseHolds(g, slots, before);
      StepCountsStrays(g, After(g, slots, before), events[|events| - 1], id);
    }
  }

  // ------------------------------------------------------------- main results

  /** The next send puts the accepted message of index `d` on the wire. */
  ghost predicate Carries(g: Guard, c: Chat, d: int)
    requires |c.ring.slots| > 0 && c.sender.Sending? && c.sender.next < |c.clients|
  {
    && 0 <= d < |c.accepted|
    && Next(g, c, Send).clients[c.sender.next] == c.clients[c.sender.next] + [c.accepted[d]]
  }

  lemma SendCarries(g: Guard, c: Chat)
    requires QueueInv(c) && c.sender.Sending? && c.sender.next < |c.clients|
    ensures Carries(g, c, |c.dequeued| - 1 + if Count(c.ring) < |c.ring.slots| then 0 else |c.ring.slots|)
  {
    SentItem(c);
  }

  lemma HoldsAt(g: Guard, slots: seq<Stamped>, events: seq<Event>, c: Chat)
    requires |slots| >= 2 && IsRun(g, slots, events) && c == After(g, slots, events) && Faultless(c)
    ensures QueueInv(c) && |c.ring.slots| == |slots|
  {
    QueueHolds(g, slots, events);
  }

  /** What a send puts on the wire: the dequeued message while a slot is free,
      the newest accepted message, a queueful later, once every slot is taken. */
  lemma SendSendsDequeuedUnlessFull(g: Guard, slots: seq<Stamped>, events: seq<Event>, c: Chat)
    requires |slots| >= 2 && IsRun(g, slots, events) && c == After(g, slots, events) && Faultless(c)
    requires c.sender.Sending? && c.sender.next < |c.clients|
    ensures |c.ring.slots| == |slots|
    ensures Carries(g, c, |c.dequeued| - 1 + if Count(c.ring) < |c.ring.slots| then 0 else |c.ring.slots|)
  {
    HoldsAt(g, slots, events, c);
    SendCarries(g, c);
  }

  lemma CourseIsSlice(stream: seq<Stamped>, accepted: seq<Stamped>, dequeued: seq<Stamped>,
                      j: Joined, upto: int, capacity: nat)
    requires IsCourse(stream, accepted, j, upto, capacity) && upto <= |dequeued| && dequeued <= accepted
    requires forall k | 0 <= k < |accepted| :: accepted[k].index == k
    ensures stream == dequeued[Due(j)..upto] <==> Strays(stream, Due(j)) == 0
  {
    NoneStray(stream, Due(j));
    if Strays(stream, Due(j)) == 0 {
      assert forall k | 0 <= k < |stream| :: ItemOrLater(stream[k], Due(j) + k, accepted, capacity);
    } else {
      var k :| 0 <= k < |stream| && stream[k].index != Due(j) + k;
      assert dequeued[Due(j)..upto][k] == accepted[Due(j) + k];
    }
  }

  /** At every moment of a run without a fault, each client has been sent one
      message for each one dequeued since it connected, in that order. Each is
      the dequeued one or the one a queueful after it; those that are not the
      dequeued one number exactly the sends made to that client with every slot
      occupied; and so the client has the dequeued stream itself, from its
      connection on, if and only if there was no such send to it. */
  lemma EveryClientGetsItsCourse(g: Guard, slots: seq<Stamped>, events: seq<Event>, id: nat)
    requires |slots| >= 2 && IsRun(g, slots, events) && Faultless(After(g, slots, events))
    requires id < |After(g, slots, events).clients|
    ensures var c := After(g, slots, events);
            && id < |c.joins|
            && 0 <= Due(c.joins[id]) <= Reached(c, id) <= |c.dequeued| && c.dequeued <= c.accepted
            && IsCourse(c.clients[id], c.accepted, c.joins[id], Reached(c, id), |slots|)
            && Strays(c.clients[id], Due(c.joins[id])) == OverwrittenTo(g, slots, events, id)
            && (c.clients[id] == c.dequeued[Due(c.joins[id])..Reached(c, id)] <==>
                OverwrittenTo(g, slots, events, id) == 0)
  {
    CourseHolds(g, slots, events);
    StraysAreOverwritten(g, slots, events, id);
    var c := After(g, slots, events);
    CourseIsSlice(c.clients[id], c.accepted, c.dequeued, c.joins[id], Reached(c, id), |slots|);
  }

  // ------------------------------------------------------ two clients compared

  ghost predicate EndsWith<T>(s: seq<T>, t: seq<T>) {
    |t| <= |s| && s[|s| - |t|..] == t
  }

  /** How client `id` fared in the broadcast under way. */
  datatype Turn = NoTurn | WithRoom | WhenFull

  /** A removal begins a broadcast; a send is made with a slot free or not. */
  function NextTurn(c: Chat, e: Event, id: nat, turn: Turn): Turn {
    if e.Remove? then NoTurn
    else if e.Send? && c.sender.Sending? && c.sender.next == id < |c.clients| then
      if Count(c.ring) == |c.ring.slots| then WhenFull else WithRoom
    else turn
  }

  function TurnOf(g: Guard, slots: seq<Stamped>, events: seq<Event>, id: nat): Turn
    requires |slots| > 0
  {
    if events == [] then NoTurn
    else
      var before := events[..|events| - 1];
      NextTurn(After(g, slots, before), events[|events| - 1], id, TurnOf(g, slots, before, id))
  }

  /** No broadcast sends to `i` with a slot free and then to `j` with every slot
      occupied. */
  predicate NeverPartWays(g: Guard, slots: seq<Stamped>, events: seq<Event>, i: nat, j: nat)
    requires |slots| > 0
  {
    events != [] ==>
      var before := events[..|events| - 1];
      && NeverPartWays(g, slots, before, i, j)
      && !(SendsOverwritten(After(g, slots, before), events[|events| - 1], j)
           && TurnOf(g, slots, before, i) == WithRoom)
  }

  /** The item for place `d` in a stream that begins with place `from`. */
  function ItemAt(s: seq<Stamped>, from: int, d: int): Stamped
    requires from <= d < from + |s|
  {
    s[d - from]
  }

  /** The two streams have the same at all places they share below `upto`. */
  ghost predicate Same(s: seq<Stamped>, from: int, t: seq<Stamped>, from': int, upto: int) {
    forall d | from <= d < from + |s| && from' <= d < from' + |t| && d < upto ::
      ItemAt(s, from, d) == ItemAt(t, from', d)
  }

  ghost predicate SameSoFar(c: Chat, i: nat, j: nat)
    requires |c.joins| == |c.clients| && i < j < |c.clients|
  {
    Same(c.clients[i], Due(c.joins[i]), c.clients[j], Due(c.joins[j]), Reached(c, j))
  }

  lemma LongerStillSame(s: seq<Stamped>, s': seq<Stamped>, from: int, t: seq<Stamped>, from': int, upto: int)
    requires s <= s' && upto <= from + |s|
    ensures Same(s', from, t, from', upto) <==> Same(s, from, t, from', upto)
  {
    assert forall d | from <= d < from + |s| :: ItemAt(s, from, d) == ItemAt(s', from, d);
  }

  /** One more item of `t`, at place `upto`. */
  lemma SameOneMore(s: seq<Stamped>, from: int, t: seq<Stamped>, from': int, upto: int, x: Stamped)
    requires upto == from' + |t|
    ensures Same(s, from, t + [x], from', upto + 1) <==>
            Same(s, from, t, from', upto) && (from <= upto < from + |s| ==> ItemAt(s, from, upto) == x)
  {
    var t' := t + [x];
    assert ItemAt(t', from', upto) == x;
    assert forall d | from' <= d < upto :: ItemAt(t', from', d) == ItemAt(t, from', d);
  }

  /** Streams only grow, and only by sends to them. */
  lemma StreamsGrow(g: Guard, c: Chat, e: Event, id: nat)
    requires CourseInv(c) && Can(c, e) && |c.ring.slots| > 0 && id < |c.clients|
    ensures var c' := Next(g, c, e);
            && id < |c'.clients| && id < |c'.joins| && c'.joins[id] == c.joins[id]
            && c.clients[id] <= c'.clients[id]
            && (!(e.Send? && c.sender.next == id) ==>
                  c'.clients[id] == c.clients[id] && Reached(c', id) == Reached(c, id))
  {
  }

  lemma CourseLength(c: Chat, id: nat)
    requires CourseInv(c) && id < |c.clients|
    ensures Due(c.joins[id]) + |c.clients[id]| == Reached(c, id)
    ensures forall k | 0 <= k < |c.clients[id]| ::
              ItemOrLater(c.clients[id][k], Due(c.joins[id]) + k, c.accepted, |c.ring.slots|)
  {
    assert IsCourse(c.clients[id], c.accepted, c.joins[id], Reached(c, id), |c.ring.slots|);
  }

  /** A step other than a send to `j` leaves the comparison as it was. */
  lemma OtherStepsCompareSame(g: Guard, c: Chat, e: Event, i: nat, j: nat)
    requires CourseInv(c) && |c.ring.slots| > 0 && CourseInv(Next(g, c, e)) && Can(c, e)
    requires i < j < |c.clients| && !(e.Send? && c.sender.next == j)
    ensures j < |Next(g, c, e).clients|
    ensures SameSoFar(Next(g, c, e), i, j) <==> SameSoFar(c, i, j)
  {
    StreamsGrow(g, c, e, i);
    StreamsGrow(g, c, e, j);
    CourseLength(c, i);
    LongerStillSame(c.clients[i], Next(g, c, e).clients[i], Due(c.joins[i]), c.clients[j], Due(c.joins[j]),
                    Reached(c, j));
  }

  /** The turn of `id` is what its stream shows of it. */
  ghost predicate TurnShows(c: Chat, id: nat, turn: Turn)
    requires |c.joins| == |c.clients|
  {
    c.sender.Sending? ==>
      (turn == NoTurn <==> !(id < |c.clients| && Served(c, id)))
      && (turn == WithRoom ==> !GotLater(c, id)) && (turn == WhenFull ==> GotLater(c, id))
  }

  lemma SendShowsTurn(g: Guard, c: Chat, id: nat, turn: Turn)
    requires QueueInv(c) && CourseInv(c) && Can(c, Send) && CourseInv(Next(g, c, Send)) && TurnShows(c, id, turn)
    ensures TurnShows(Next(g, c, Send), id, NextTurn(c, Send, id, turn))
  {
    SentItem(c);
    if id < |c.clients| {
      CourseLength(c, id);
      StreamsGrow(g, c, Send, id);
    }
  }

  lemma StepShowsTurn(g: Guard, c: Chat, e: Event, id: nat, turn: Turn)
    requires QueueInv(c) && CourseInv(c) && Can(c, e) && CourseInv(Next(g, c, e)) && TurnShows(c, id, turn)
    requires !c.sender.Sending? ==> !e.Send?
    ensures TurnShows(Next(g, c, e), id, NextTurn(c, e, id, turn))
  {
    if e.Send? {
      SendShowsTurn(g, c, id, turn);
    } else if id < |c.clients| {
      StreamsGrow(g, c, e, id);
    }
  }

  lemma {:induction false} TurnsShow(g: Guard, slots: seq<Stamped>, events: seq<Event>, id: nat)
    requires |slots| >= 2 && IsRun(g, slots, events) && Faultless(After(g, slots, events))
    ensures CourseInv(After(g, slots, events))
    ensures TurnShows(After(g, slots, events), id, TurnOf(g, slots, events, id))
  {
    CourseHolds(g, slots, events);
    if events != [] {
      var before, e := events[..|events| - 1], events[|events| - 1];
      FaultsOnlyGrow(g, After(g, slots, before), e);
      TurnsShow(g, slots, before, id);
      CourseHolds(g, slots, before);
      StepShowsTurn(g, After(g, slots, before), e, id, TurnOf(g, slots, before, id));
    }
  }

  /** The send to `j` goes the way of the send to `i` unless that had room and this
      has none. */
  lemma SendComparesNext(g: Guard, c: Chat, i: nat, j: nat, turn: Turn)
    requires QueueInv(c) && CourseInv(c) && CourseInv(Next(g, c, Send)) && Can(c, Send)
    requires i < j < |c.clients| && c.sender.next == j && TurnShows(c, i, turn)
    ensures j < |Next(g, c, Send).clients|
    ensures SameSoFar(Next(g, c, Send), i, j) <==>
            SameSoFar(c, i, j) && !(SendsOverwritten(c, Send, j) && turn == WithRoom)
  {
    var s, from, last, x := c.clients[i], Due(c.joins[i]), |c.dequeued| - 1, c.ring.slots[c.sender.slot];
    SentItem(c);
    CourseLength(c, i);
    CourseLength(c, j);
    SameOneMore(s, from, c.clients[j], Due(c.joins[j]), last, x);
    if from <= last {
      ServedItem(c, i);
    }
  }

  /** What `i` got in the broadcast under way. */
  lemma ServedItem(c: Chat, i: nat)
    requires CourseInv(c) && i < |c.clients| && Served(c, i)
    ensures var s, from, last := c.clients[i], Due(c.joins[i]), |c.dequeued| - 1;
            && from <= last < from + |s|
            && ItemOrLater(ItemAt(s, from, last), last, c.accepted, |c.ring.slots|)
            && (GotLater(c, i) <==> ItemAt(s, from, last).index != last)
            && (GotLater(c, i) ==> Count(c.ring) == |c.ring.slots|)
  {
    CourseLength(c, i);
    var s := c.clients[i];
    assert ItemAt(s, Due(c.joins[i]), |c.dequeued| - 1) == s[|s| - 1];
  }

  lemma NewcomerComparesSame(c: Chat, i: nat)
    requires |c.joins| == |c.clients| && i + 1 < |c.clients| && c.clients[|c.clients| - 1] == []
    ensures SameSoFar(c, i, |c.clients| - 1)
  {
  }

  /** Whether `i` and `j` were sent the same so far; before `j` connects there is
      nothing to compare. */
  ghost predicate Compared(c: Chat, i: nat, j: nat, same: bool)
    requires |c.joins| == |c.clients| && i < j
  {
    if j < |c.clients| then SameSoFar(c, i, j) <==> same else same
  }

  lemma StepCompares(g: Guard, c: Chat, e: Event, i: nat, j: nat, turn: Turn, same: bool)
    requires QueueInv(c) && CourseInv(c) && CourseInv(Next(g, c, e)) && Can(c, e) && i < j
    requires Compared(c, i, j, same) && TurnShows(c, i, turn)
    ensures Compared(Next(g, c, e), i, j, same && !(SendsOverwritten(c, e, j) && turn == WithRoom))
  {
    if j >= |c.clients| {
      if j < |Next(g, c, e).clients| {
        NewcomerComparesSame(Next(g, c, e), i);
      }
    } else if e.Send? && c.sender.next == j {
      SendComparesNext(g, c, i, j, turn);
    } else {
      OtherStepsCompareSame(g, c, e, i, j);
    }
  }

  lemma {:induction false} SameIffNeverPartWays(g: Guard, slots: seq<Stamped>, events: seq<Event>, i: nat, j: nat)
    requires |slots| >= 2 && IsRun(g, slots, events) && Faultless(After(g, slots, events)) && i < j
    ensures CourseInv(After(g, slots, events))
    ensures Compared(After(g, slots, events), i, j, NeverPartWays(g, slots, events, i, j))
  {
    CourseHolds(g, slots, events);
    if events != [] {
      var before, e := events[..|events| - 1], events[|events| - 1];
      FaultsOnlyGrow(g, After(g, slots, before), e);
      SameIffNeverPartWays(g, slots, before, i, j);
      CourseHolds(g, slots, before);
      TurnsShow(g, slots, before, i);
      StepCompares(g, After(g, slots, before), e, i, j, TurnOf(g, slots, before, i),
                   NeverPartWays(g, slots, before, i, j));
    }
  }

  lemma EndsWithIffSame(c: Chat, i: nat, j: nat)
    requires CourseInv(c) && i < j < |c.clients| && !c.sender.Sending?
    ensures EndsWith(c.clients[i], c.clients[j]) <==> Due(c.joins[i]) <= Due(c.joins[j]) && SameSoFar(c, i, j)
  {
    CourseLength(c, i);
    CourseLength(c, j);
    TailIffSame(c.clients[i], Due(c.joins[i]), c.clients[j], Due(c.joins[j]));
  }

  lemma TailIffSame(s: seq<Stamped>, from: int, t: seq<Stamped>, from': int)
    requires from + |s| == from' + |t|
    ensures EndsWith(s, t) <==> from <= from' && Same(s, from, t, from', from + |s|)
  {
    if from <= from' {
      var tail := s[|s| - |t|..];
      assert forall k | 0 <= k < |t| :: tail[k] == ItemAt(s, from, from' + k) && t[k] == ItemAt(t, from', from' + k);
      if EndsWith(s, t) {
        forall d | from' <= d < from' + |t| ensures ItemAt(s, from, d) == ItemAt(t, from', d) {
          assert tail[d - from'] == t[d - from'];
        }
      }
    }
  }

  /** Between broadcasts of a run without a fault, an earlier client's stream ends
      with a later client's if and only if neither of two things happened: the
      earlier one connected during a broadcast that had already passed it by and
      the later one during the same broadcast, before its turn; or the queue
      filled up between the sends of one message to the two. */
  lemma EarlierEndsWithLater(g: Guard, slots: seq<Stamped>, events: seq<Event>, i: nat, j: nat)
    requires |slots| >= 2 && IsRun(g, slots, events) && Faultless(After(g, slots, events))
    requires !After(g, slots, events).sender.Sending? && i < j < |After(g, slots, events).clients|
    ensures var c := After(g, slots, events);
            && |c.joins| == |c.clients|
            && (EndsWith(c.clients[i], c.clients[j]) <==>
                && !(c.joins[i].dequeued == c.joins[j].dequeued && !c.joins[i].during && c.joins[j].during)
                && NeverPartWays(g, slots, events, i, j))
  {
    SameIffNeverPartWays(g, slots, events, i, j);
    EndsWithIffSame(After(g, slots, events), i, j);
  }
}
