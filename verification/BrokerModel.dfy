/** The broker's shared state as a value, and one function for each of its
    critical sections: appending a message, toggling a subscription, and one
    wake-up of a sender thread. */
module BrokerModel {
  type Topic = string
  type Content = string

  /** The pair kept per user and topic: subscribed flag and read cursor. */
  datatype Entry = Entry(on: bool, cursor: nat)

  /** One message as sent on a subscriber's socket. */
  datatype Packet = Packet(topic: Topic, content: Content)

  /** `outbox[id]` is everything sent so far on the socket of subscriber `id`. */
  datatype State = State(
    topics: map<Topic, seq<Content>>,
    users: map<int, map<Topic, Entry>>,
    outbox: map<int, seq<Packet>>)

  const EMPTY_BROKER := State(map[], map[], map[])

  function Log(s: State, t: Topic): seq<Content> {
    if t in s.topics then s.topics[t] else []
  }

  function Subscriptions(s: State, id: int): map<Topic, Entry> {
    if id in s.users then s.users[id] else map[]
  }

  /** The entry of a topic never requested reads as the default pair. */
  function EntryOf(s: State, id: int, t: Topic): Entry {
    if t in Subscriptions(s, id) then Subscriptions(s, id)[t] else Entry(false, 0)
  }

  function Outbox(s: State, id: int): seq<Packet> {
    if id in s.outbox then s.outbox[id] else []
  }

  function SetEntry(s: State, id: int, t: Topic, e: Entry): State {
    s.(users := s.users[id := Subscriptions(s, id)[t := e]])
  }

  /** Reading `topics[t]` creates an empty log for a topic never published. */
  function Touch(s: State, t: Topic): State {
    s.(topics := s.topics[t := Log(s, t)])
  }

  function Emit(s: State, id: int, ps: seq<Packet>): State {
    s.(outbox := s.outbox[id := Outbox(s, id) + ps])
  }

  function Packets(t: Topic, cs: seq<Content>): seq<Packet> {
    seq(|cs|, i requires 0 <= i < |cs| => Packet(t, cs[i]))
  }

  /** register_message */
  function Append(s: State, t: Topic, c: Content): State {
    s.(topics := s.topics[t := Log(s, t) + [c]])
  }

  /** The toggle block of handle_receiver. */
  function Flip(s: State, id: int, t: Topic): State {
    var e := EntryOf(s, id, t);
    SetEntry(s, id, t, if e.on then Entry(false, e.cursor) else Entry(true, 0))
  }

  /** One iteration of the topic loop of handle_sender, undisturbed. */
  function Visit(s: State, id: int, t: Topic): State {
    var e := EntryOf(s, id, t);
    if !e.on then s
    else if e.cursor >= |Log(s, t)| then Touch(s, t)
    else SetEntry(Emit(Touch(s, t), id, Packets(t, Log(s, t)[e.cursor..])), id, t, Entry(true, |Log(s, t)|))
  }

  function Visits(s: State, id: int, order: seq<Topic>): State {
    if order == [] then s
    else Visit(Visits(s, id, order[..|order| - 1]), id, order[|order| - 1])
  }

  /** Reading `user_informations[id]` creates an empty map for a new user. */
  function Enter(s: State, id: int): State {
    s.(users := s.users[id := Subscriptions(s, id)])
  }

  datatype Event =
    | Publish(topic: Topic, content: Content)
    | Toggle(id: int, topic: Topic)
    | Wake(id: int, order: seq<Topic>)

  function Step(s: State, e: Event): State {
    match e
    case Publish(t, c) => Append(s, t, c)
    case Toggle(id, t) => Flip(s, id, t)
    case Wake(id, order) => Visits(Enter(s, id), id, order)
  }

  /** `order` lists the elements of `topics`, each once. */
  ghost predicate Enumerates(order: seq<Topic>, topics: set<Topic>) {
    && (forall i, j | 0 <= i < j < |order| :: order[i] != order[j])
    && (forall t :: t in order <==> t in topics)
  }

  /** A wake-up visits every topic the user ever requested, in some order. */
  ghost predicate Enabled(s: State, e: Event) {
    e.Wake? ==> Enumerates(e.order, Subscriptions(s, e.id).Keys)
  }

  function Run(events: seq<Event>): State {
    if events == [] then EMPTY_BROKER
    else Step(Run(events[..|events| - 1]), events[|events| - 1])
  }

  ghost predicate IsRun(events: seq<Event>) {
    events != [] ==>
      && IsRun(events[..|events| - 1])
      && Enabled(Run(events[..|events| - 1]), events[|events| - 1])
  }

  // ---------------------------------------------------------------- streams

  /** The contents sent on topic `t`, in the order sent. */
  function Project(ps: seq<Packet>, t: Topic): seq<Content> {
    if ps == [] then []
    else
      var p := ps[|ps| - 1];
      Project(ps[..|ps| - 1], t) + if p.topic == t then [p.content] else []
  }

  lemma ProjectOneMore(ps: seq<Packet>, p: Packet, t: Topic)
    ensures Project(ps + [p], t) == Project(ps, t) + if p.topic == t then [p.content] else []
  {
    assert (ps + [p])[..|ps|] == ps;
  }

  lemma {:induction false} ProjectConcat(a: seq<Packet>, b: seq<Packet>, t: Topic)
    ensures Project(a + b, t) == Project(a, t) + Project(b, t)
  {
    if b == [] {
      assert a + b == a;
    } else {
      var init, last := b[..|b| - 1], b[|b| - 1];
      assert a + b == (a + init) + [last];
      ProjectConcat(a, init, t);
      ProjectOneMore(a + init, last, t);
    }
  }

  lemma {:induction false} ProjectPackets(u: Topic, cs: seq<Content>, t: Topic)
    ensures Project(Packets(u, cs), t) == if u == t then cs else []
  {
    if cs != [] {
      var front := cs[..|cs| - 1];
      ProjectPackets(u, front, t);
      assert Packets(u, cs)[..|cs| - 1] == Packets(u, front);
      assert front + [cs[|cs| - 1]] == cs;
    }
  }

  // ------------------------------------- the state as seen by one user, topic

  datatype View = View(log: seq<Content>, known: bool, entry: Entry, stream: seq<Content>)

  function ViewOf(s: State, id: int, t: Topic): View {
    View(Log(s, t), t in Subscriptions(s, id), EntryOf(s, id, t), Project(Outbox(s, id), t))
  }

  /** A request for the topic: off with the cursor kept, or on from the start. */
  function Flipped(v: View): View {
    v.(known := true, entry := if v.entry.on then Entry(false, v.entry.cursor) else Entry(true, 0))
  }

  lemma ViewAfterAppend(s: State, u: Topic, c: Content, id: int, t: Topic)
    ensures ViewOf(Append(s, u, c), id, t) ==
            if t == u then ViewOf(s, id, t).(log := Log(s, t) + [c]) else ViewOf(s, id, t)
  {
    var s' := Append(s, u, c);
    assert Log(s', t) == if t == u then Log(s, t) + [c] else Log(s, t);
  }

  lemma ViewAfterTouch(s: State, u: Topic, id: int, t: Topic)
    ensures ViewOf(Touch(s, u), id, t) == ViewOf(s, id, t)
  {
    assert Log(Touch(s, u), t) == Log(s, t);
  }

  lemma ViewAfterEnter(s: State, u: int, id: int, t: Topic)
    ensures ViewOf(Enter(s, u), id, t) == ViewOf(s, id, t)
  {
    assert Subscriptions(Enter(s, u), id) == Subscriptions(s, id);
  }

  lemma ViewAfterSetEntry(s: State, i: int, u: Topic, e: Entry, id: int, t: Topic)
    ensures ViewOf(SetEntry(s, i, u, e), id, t) ==
            if id == i && t == u then ViewOf(s, id, t).(known := true, entry := e) else ViewOf(s, id, t)
  {
    var s' := SetEntry(s, i, u, e);
    assert Subscriptions(s', id) == if id == i then Subscriptions(s, id)[u := e] else Subscriptions(s, id);
  }

  lemma ViewAfterFlip(s: State, i: int, u: Topic, id: int, t: Topic)
    ensures ViewOf(Flip(s, i, u), id, t) ==
            if id == i && t == u then Flipped(ViewOf(s, id, t)) else ViewOf(s, id, t)
  {
    var e := EntryOf(s, i, u);
    ViewAfterSetEntry(s, i, u, if e.on then Entry(false, e.cursor) else Entry(true, 0), id, t);
  }

  lemma ViewAfterEmit(s: State, i: int, u: Topic, cs: seq<Content>, id: int, t: Topic)
    ensures ViewOf(Emit(s, i, Packets(u, cs)), id, t) ==
            if id == i && t == u then ViewOf(s, id, t).(stream := Project(Outbox(s, id), t) + cs)
            else ViewOf(s, id, t)
  {
    var s' := Emit(s, i, Packets(u, cs));
    assert Outbox(s', id) == if id == i then Outbox(s, id) + Packets(u, cs) else Outbox(s, id);
    if id == i {
      ProjectConcat(Outbox(s, id), Packets(u, cs), t);
      ProjectPackets(u, cs, t);
    }
  }
}
