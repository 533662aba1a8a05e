/** The converse of the reduction: whatever undivided wake-ups can do, the loop cut
    into its pieces does. For every run with undivided wake-ups there is one of
    the pieces, with proper exclusion, that ends in the same state. */
module BrokerConverse {
  import opened BrokerModel
  import opened BrokerMicro
  import opened BrokerReduction

  /** Some run with exclusion leads to `m`, with `events` as its undivided run. */
  ghost predicate Reached(m: Micro, events: seq<Event>) {
    exists actions :: IsMicroRun(actions) && Exclusive(actions) && After(actions) == m && Serialize(actions) == events
  }

  lemma StartReached()
    ensures Reached(START, [])
  {
    assert IsMicroRun([]) && Exclusive([]) && After([]) == START && Serialize([]) == [];
  }

  lemma Step(m: Micro, events: seq<Event>, a: Action)
    requires Reached(m, events) && Can(m, a) && ActsAlone(m, a)
    ensures Reached(Next(m, a), events + Serialized(m, a))
  {
    var actions :| IsMicroRun(actions) && Exclusive(actions) && After(actions) == m && Serialize(actions) == events;
    var all := actions + [a];
    assert all[..|all| - 1] == actions && all[|all| - 1] == a;
    assert IsMicroRun(all) && Exclusive(all) && After(all) == Next(m, a);
    assert Serialize(all) == events + Serialized(m, a);
  }

  /** A step of the sender, which shows in no undivided run. */
  lemma SilentStep(m: Micro, events: seq<Event>, a: Action)
    requires Reached(m, events) && Can(m, a) && ActsAlone(m, a) && Serialized(m, a) == []
    ensures Reached(Next(m, a), events)
  {
    Step(m, events, a);
    assert events + [] == events;
  }

  /** Steps left until the sender is done with the topic it is at. */
  function ToGo(m: Micro): nat
    requires m.pc.Body?
  {
    match m.pc.at
    case Choosing => 0
    case Read(t, copy) => 2 * |Log(m.base, t)| + 6
    case Testing(t, i) => 2 * (if i < |Log(m.base, t)| then |Log(m.base, t)| - i else 0) + 4
    case Sending(t, i) => 2 * (if i < |Log(m.base, t)| then |Log(m.base, t)| - i else 0) + 3
    case Sizing(_) => 2
    case Writing(_, _) => 1
  }

  /** The sender stays in its loop, and leaves the topic or gets closer to it. */
  lemma AdvanceGoesOn(m: Micro, q: State)
    requires Tracks(m, q) && m.pc.Body? && !m.pc.at.Choosing?
    ensures var m' := Next(m, Advance);
            && m'.pc.Body? && m'.resets == m.resets && m'.pc.id == m.pc.id && m'.pc.due == m.pc.due
            && ToGo(m') < ToGo(m)
            && if m'.pc.at.Choosing? then m'.pc.seen == m.pc.seen + [m.pc.at.topic]
               else m'.pc.seen == m.pc.seen && m'.pc.at.topic == m.pc.at.topic
  {
    var id, t := m.pc.id, m.pc.at.topic;
    var s := Visits(Enter(q, id), id, m.pc.seen);
    match m.pc.at
    case Testing(_, i) => SentUpToReads(s, id, t, EntryOf(s, id, t).cursor, i);
    case Sending(_, i) => SentUpToReads(s, id, t, EntryOf(s, id, t).cursor, i);
    case _ =>
  }

  /** The sender gets through the topic it is at. */
  lemma {:induction false} VisitEnds(m: Micro, events: seq<Event>, q: State) returns (m': Micro)
    requires Reached(m, events) && Tracks(m, q) && m.pc.Body? && !m.pc.at.Choosing?
    ensures Reached(m', events) && Tracks(m', q)
    ensures m'.pc == m.pc.(at := Choosing, seen := m.pc.seen + [m.pc.at.topic]) && m'.resets == m.resets
    decreases ToGo(m)
  {
    AdvanceTracks(m, q);
    AdvanceGoesOn(m, q);
    SilentStep(m, events, Advance);
    m' := Next(m, Advance);
    if !m'.pc.at.Choosing? {
      m' := VisitEnds(m', events, q);
    }
  }

  /** The sender is at the head of its loop, with `seen` behind it. */
  ghost predicate AtHead(m: Micro, q: State, id: int, seen: seq<Topic>) {
    Tracks(m, q) && m.pc == Body(id, Subscriptions(q, id).Keys, seen, Choosing) && m.resets == map[]
  }

  lemma NextTopic(m: Micro, events: seq<Event>, q: State, id: int, seen: seq<Topic>, t: Topic) returns (m': Micro)
    requires Reached(m, events) && AtHead(m, q, id, seen) && t in Subscriptions(q, id) && t !in seen
    ensures Reached(m', events) && AtHead(m', q, id, seen + [t])
  {
    VisitsKeepKeys(Enter(q, id), id, seen);
    ChooseTracks(m, t, q);
    SilentStep(m, events, Choose(t));
    m' := VisitEnds(Next(m, Choose(t)), events, q);
  }

  lemma {:induction false} AllTopics(m: Micro, events: seq<Event>, q: State, id: int, order: seq<Topic>)
    returns (m': Micro)
    requires Reached(m, events) && AtHead(m, q, id, [])
    requires Distinct(order) && forall t | t in order :: t in Subscriptions(q, id)
    ensures Reached(m', events) && AtHead(m', q, id, order)
  {
    if order == [] {
      m' := m;
    } else {
      var init, last := order[..|order| - 1], order[|order| - 1];
      m' := AllTopics(m, events, q, id, init);
      m' := NextTopic(m', events, q, id, init, last);
      assert init + [last] == order;
    }
  }

  /** Between wake-ups, and outside the receivers' blocks, the pieces have come as
      far as the undivided run. */
  ghost predicate Realized(events: seq<Event>) {
    Reached(Micro(Run(events), Idle, map[]), events)
  }

  lemma PublishRealized(events: seq<Event>, t: Topic, c: Content)
    requires Realized(events)
    ensures Reached(Micro(BrokerModel.Append(Run(events), t, c), Idle, map[]), events + [Publish(t, c)])
  {
    Step(Micro(Run(events), Idle, map[]), events, Append(t, c));
  }

  lemma ToggleRealized(events: seq<Event>, id: int, t: Topic)
    requires Realized(events)
    ensures Reached(Micro(Flip(Run(events), id, t), Idle, map[]), events + [Toggle(id, t)])
  {
    var q := Run(events);
    var m := Micro(q, Idle, map[]);
    var m' := Next(m, Request(id, t));
    Step(m, events, Request(id, t));
    if t in Subscriptions(q, id) && !EntryOf(q, id, t).on {
      SilentStep(m', events + [Toggle(id, t)], Reset(id));
      SetEntryTwice(q, id, t, EntryOf(q, id, t).(on := true), Entry(true, 0));
      assert m'.resets == map[id := t] && map[id := t] - {id} == map[];
      assert EntryOf(m'.base, id, t) == EntryOf(q, id, t).(on := true);
    }
  }

  lemma EnterLoop(q: State, events: seq<Event>, id: int) returns (m: Micro)
    requires Reached(Micro(q, Idle, map[]), events)
    ensures Reached(m, events) && AtHead(m, q, id, [])
  {
    m := Next(Micro(q, Idle, map[]), Begin(id));
    SilentStep(Micro(q, Idle, map[]), events, Begin(id));
  }

  lemma LeaveLoop(m: Micro, events: seq<Event>, q: State, id: int, order: seq<Topic>)
    requires Reached(m, events) && AtHead(m, q, id, order) && Can(m, Finish)
    ensures Reached(Micro(BrokerModel.Step(q, Wake(id, order)), Idle, map[]), events + [Wake(id, order)])
  {
    Step(m, events, Finish);
    FinishTracks(m, q);
  }

  lemma WakeRealized(events: seq<Event>, id: int, order: seq<Topic>)
    requires Realized(events) && Enabled(Run(events), Wake(id, order))
    ensures Reached(Micro(BrokerModel.Step(Run(events), Wake(id, order)), Idle, map[]), events + [Wake(id, order)])
  {
    var m := EnterLoop(Run(events), events, id);
    m := AllTopics(m, events, Run(events), id, order);
    LeaveLoop(m, events, Run(events), id, order);
  }

  lemma {:induction false} AlwaysRealized(events: seq<Event>)
    requires IsRun(events)
    ensures Realized(events)
  {
    if events == [] {
      StartReached();
    } else {
      var before, e := events[..|events| - 1], events[|events| - 1];
      AlwaysRealized(before);
      assert before + [e] == events;
      match e
      case Publish(t, c) => PublishRealized(before, t, c);
      case Toggle(id, t) => ToggleRealized(before, id, t);
      case Wake(id, order) => WakeRealized(before, id, order);
    }
  }

  /** Every run with undivided wake-ups is the undivided run of some run of the
      loop's pieces, and both end in the same state: the sender that is woken does
      enter its loop, serve every topic and leave it again. */
  lemma UndividedRunsHappen(events: seq<Event>)
    requires IsRun(events)
    ensures exists actions ::
              && IsMicroRun(actions) && Exclusive(actions) && Serialize(actions) == events
              && After(actions) == Micro(Run(events), Idle, map[])
  {
    AlwaysRealized(events);
  }
}
