/** If appends and toggles kept out of the sender's loop, as its lock intends,
    the loop could be taken as one step: every interleaving of its pieces then
    ends in the state of a run with undisturbed wake-ups. */
module BrokerReduction {
  import opened BrokerModel
  import opened BrokerEpochs
  import opened BrokerMicro

  /** Nobody else acts while a sender is inside its loop, and no sender and no
      other receiver starts while a receiver is between its two writes. */
  ghost predicate ActsAlone(m: Micro, a: Action) {
    && (a.Append? || a.Request? || a.Reset? ==> m.pc.Idle?)
    && (a.Request? || a.Begin? ==> m.resets == map[])
  }

  ghost predicate Exclusive(actions: seq<Action>) {
    actions != [] ==>
      Exclusive(actions[..|actions| - 1]) && ActsAlone(After(actions[..|actions| - 1]), actions[|actions| - 1])
  }

  /** The undisturbed run: each completed loop becomes one wake-up. */
  function Serialized(m: Micro, a: Action): seq<Event> {
    match a
    case Append(t, c) => [Publish(t, c)]
    case Request(id, t) => [Toggle(id, t)]
    case Finish => if m.pc.Body? then [Wake(m.pc.id, m.pc.seen)] else []
    case _ => []
  }

  function Serialize(actions: seq<Action>): seq<Event> {
    if actions == [] then []
    else
      var before := actions[..|actions| - 1];
      Serialize(before) + Serialized(After(before), actions[|actions| - 1])
  }

  ghost predicate Distinct(order: seq<Topic>) {
    forall i, j | 0 <= i < j < |order| :: order[i] != order[j]
  }

  /** `s` after entries `from..i` of the log of `t` have been sent. */
  function SentUpTo(s: State, id: int, t: Topic, from: nat, i: nat): State
    requires from <= i <= |Log(s, t)|
  {
    if from == i then Touch(s, t) else Emit(Touch(s, t), id, Packets(t, Log(s, t)[from..i]))
  }

  /** `s` is the state before the visit of `t`, which is under way. */
  ghost predicate MidVisit(base: State, s: State, id: int, t: Topic, i: nat) {
    var e := EntryOf(s, id, t);
    e.on && e.cursor < |Log(s, t)| && e.cursor <= i <= |Log(s, t)| && base == SentUpTo(s, id, t, e.cursor, i)
  }

  /** `base` lacks the last write of a receiver that is between its two. */
  ghost predicate BehindByReset(base: State, q: State, id: int, t: Topic) {
    && t in Subscriptions(base, id) && EntryOf(base, id, t).on
    && SetEntry(base, id, t, Entry(true, 0)) == q
  }

  /** `q` is the state of the undisturbed run, `m` the one reached so far. */
  ghost predicate Tracks(m: Micro, q: State) {
    match m.pc
    case Idle =>
      if m.resets == map[] then m.base == q
      else exists id, t :: m.resets == map[id := t] && BehindByReset(m.base, q, id, t)
    case Body(id, due, seen, at) =>
      var s := Visits(Enter(q, id), id, seen);
      && m.resets == map[]
      && due == Subscriptions(q, id).Keys
      && Distinct(seen)
      && (forall t | t in seen :: t in due)
      && (!at.Choosing? ==> at.topic in due && at.topic !in seen)
      && match at
         case Choosing => m.base == s
         case Read(t, copy) => m.base == s && copy == EntryOf(s, id, t)
         case Testing(t, i) => MidVisit(m.base, s, id, t, i)
         case Sending(t, i) => MidVisit(m.base, s, id, t, i) && i < |Log(s, t)|
         case Sizing(t) => MidVisit(m.base, s, id, t, |Log(s, t)|)
         case Writing(t, n) => MidVisit(m.base, s, id, t, |Log(s, t)|) && n == |Log(s, t)|
  }

  lemma SentUpToReads(s: State, id: int, t: Topic, from: nat, i: nat)
    requires from <= i <= |Log(s, t)|
    ensures Log(SentUpTo(s, id, t, from, i), t) == Log(s, t)
    ensures Subscriptions(SentUpTo(s, id, t, from, i), id) == Subscriptions(s, id)
  {
  }

  lemma SendExtends(s: State, id: int, t: Topic, from: nat, i: nat)
    requires from <= i < |Log(s, t)|
    ensures Emit(SentUpTo(s, id, t, from, i), id, Packets(t, [Log(s, t)[i]])) == SentUpTo(s, id, t, from, i + 1)
  {
    var log := Log(s, t);
    assert log[from..i + 1] == log[from..i] + [log[i]];
    assert Packets(t, log[from..i + 1]) == Packets(t, log[from..i]) + Packets(t, [log[i]]);
    var one := Emit(SentUpTo(s, id, t, from, i), id, Packets(t, [log[i]]));
    assert one.outbox[id] == Outbox(s, id) + Packets(t, log[from..i + 1]);
    assert one.outbox == SentUpTo(s, id, t, from, i + 1).outbox;
  }

  lemma LeaveVisits(s: State, id: int, seen: seq<Topic>, t: Topic)
    ensures Visits(s, id, seen + [t]) == Visit(Visits(s, id, seen), id, t)
  {
    assert (seen + [t])[..|seen|] == seen;
  }

  lemma {:induction false} VisitsKeepKeys(s: State, id: int, order: seq<Topic>)
    requires forall t | t in order :: t in Subscriptions(s, id)
    ensures Subscriptions(Visits(s, id, order), id).Keys == Subscriptions(s, id).Keys
  {
    if order != [] {
      assert forall t | t in order[..|order| - 1] :: t in order;
      VisitsKeepKeys(s, id, order[..|order| - 1]);
    }
  }

  /** From the copied pair to the first test, or past the topic. */
  lemma ReadTracks(m: Micro, q: State)
    requires Tracks(m, q) && m.pc.Body? && m.pc.at.Read?
    ensures Tracks(Next(m, Advance), q)
  {
    var id, t := m.pc.id, m.pc.at.topic;
    var s := Visits(Enter(q, id), id, m.pc.seen);
    LeaveVisits(Enter(q, id), id, m.pc.seen, t);
    if m.pc.at.copy.on && m.pc.at.copy.cursor < |Log(s, t)| {
      assert MidVisit(Touch(s, t), s, id, t, m.pc.at.copy.cursor);
    }
  }

  lemma LoopTracks(m: Micro, q: State)
    requires Tracks(m, q) && m.pc.Body? && (m.pc.at.Testing? || m.pc.at.Sending? || m.pc.at.Sizing?)
    ensures Tracks(Next(m, Advance), q)
  {
    var id, t := m.pc.id, m.pc.at.topic;
    var s := Visits(Enter(q, id), id, m.pc.seen);
    var from := EntryOf(s, id, t).cursor;
    match m.pc.at
    case Testing(_, i) => SentUpToReads(s, id, t, from, i);
    case Sending(_, i) =>
      SentUpToReads(s, id, t, from, i);
      SendExtends(s, id, t, from, i);
    case Sizing(_) => SentUpToReads(s, id, t, from, |Log(s, t)|);
  }

  /** Storing the cursor completes the visit. */
  lemma WriteTracks(m: Micro, q: State)
    requires Tracks(m, q) && m.pc.Body? && m.pc.at.Writing?
    ensures Tracks(Next(m, Advance), q)
  {
    var id, t, n := m.pc.id, m.pc.at.topic, m.pc.at.size;
    var s := Visits(Enter(q, id), id, m.pc.seen);
    LeaveVisits(Enter(q, id), id, m.pc.seen, t);
    var from := EntryOf(s, id, t).cursor;
    SentUpToReads(s, id, t, from, n);
    assert Log(s, t)[from..n] == Log(s, t)[from..];
    assert Visit(s, id, t) == SetEntry(SentUpTo(s, id, t, from, n), id, t, Entry(true, n));
  }

  lemma AdvanceTracks(m: Micro, q: State)
    requires Tracks(m, q) && Can(m, Advance)
    ensures Tracks(Next(m, Advance), q)
  {
    match m.pc.at
    case Read(_, _) => ReadTracks(m, q);
    case Writing(_, _) => WriteTracks(m, q);
    case _ => LoopTracks(m, q);
  }

  lemma OneMoreEvent(events: seq<Event>, e: Event)
    requires IsRun(events) && Enabled(Run(events), e)
    ensures IsRun(events + [e]) && Run(events + [e]) == Step(Run(events), e)
  {
    assert (events + [e])[..|events|] == events;
  }

  lemma ChooseTracks(m: Micro, t: Topic, q: State)
    requires Tracks(m, q) && Can(m, Choose(t))
    ensures Tracks(Next(m, Choose(t)), q)
  {
    VisitsKeepKeys(Enter(q, m.pc.id), m.pc.id, m.pc.seen);
  }

  lemma FinishTracks(m: Micro, q: State)
    requires Tracks(m, q) && Can(m, Finish)
    ensures Enabled(q, Wake(m.pc.id, m.pc.seen)) && m.base == Step(q, Wake(m.pc.id, m.pc.seen))
  {
  }

  lemma AppendTracks(m: Micro, t: Topic, c: Content, q: State)
    requires Tracks(m, q) && m.pc.Idle?
    ensures Tracks(Next(m, Append(t, c)), BrokerModel.Append(q, t, c))
  {
    var m', q' := Next(m, Append(t, c)), BrokerModel.Append(q, t, c);
    if m.resets != map[] {
      var id, u :| m.resets == map[id := u] && BehindByReset(m.base, q, id, u);
      assert BehindByReset(m'.base, q', id, u);
    }
  }

  lemma SetEntryTwice(s: State, id: int, t: Topic, e: Entry, e': Entry)
    ensures SetEntry(SetEntry(s, id, t, e), id, t, e') == SetEntry(s, id, t, e')
  {
    assert Subscriptions(s, id)[t := e][t := e'] == Subscriptions(s, id)[t := e'];
  }

  lemma RequestTracks(m: Micro, id: int, t: Topic, q: State)
    requires Tracks(m, q) && m.pc.Idle? && m.resets == map[]
    ensures Tracks(Next(m, Request(id, t)), Flip(q, id, t))
  {
    var e, m' := EntryOf(q, id, t), Next(m, Request(id, t));
    if t in Subscriptions(q, id) && !e.on {
      SetEntryTwice(q, id, t, e.(on := true), Entry(true, 0));
      assert m'.resets == map[id := t] && BehindByReset(m'.base, Flip(q, id, t), id, t);
    }
  }

  lemma ResetTracks(m: Micro, i: int, q: State)
    requires Tracks(m, q) && m.pc.Idle? && i in m.resets
    ensures Tracks(Next(m, Reset(i)), q)
  {
    var id, t :| m.resets == map[id := t] && BehindByReset(m.base, q, id, t);
    assert m.resets - {i} == map[];
  }

  lemma StepTracks(m: Micro, a: Action, events: seq<Event>)
    requires IsRun(events) && Tracks(m, Run(events))
    requires Can(m, a) && ActsAlone(m, a)
    ensures IsRun(events + Serialized(m, a))
    ensures Tracks(Next(m, a), Run(events + Serialized(m, a)))
  {
    assert events + [] == events;
    match a
    case Append(t, c) =>
      OneMoreEvent(events, Publish(t, c));
      AppendTracks(m, t, c, Run(events));
    case Request(id, t) =>
      OneMoreEvent(events, Toggle(id, t));
      RequestTracks(m, id, t, Run(events));
    case Reset(id) => ResetTracks(m, id, Run(events));
    case Begin(id) =>
    case Choose(t) => ChooseTracks(m, t, Run(events));
    case Advance => AdvanceTracks(m, Run(events));
    case Finish =>
      FinishTracks(m, Run(events));
      OneMoreEvent(events, Wake(m.pc.id, m.pc.seen));
  }

  lemma {:induction false} ExclusiveTracks(actions: seq<Action>)
    requires IsMicroRun(actions) && Exclusive(actions)
    ensures IsRun(Serialize(actions))
    ensures Tracks(After(actions), Run(Serialize(actions)))
  {
    if actions != [] {
      var before := actions[..|actions| - 1];
      ExclusiveTracks(before);
      StepTracks(After(before), actions[|actions| - 1], Serialize(before));
    }
  }

  function Input(a: Action): seq<Event> {
    match a
    case Append(t, c) => [Publish(t, c)]
    case Request(id, t) => [Toggle(id, t)]
    case _ => []
  }

  /** The publishes and toggles that `actions` consists of, in their order. */
  function Inputs(actions: seq<Action>): seq<Event> {
    if actions == [] then [] else Inputs(actions[..|actions| - 1]) + Input(actions[|actions| - 1])
  }

  lemma {:induction false} WithoutWakesConcat(a: seq<Event>, b: seq<Event>)
    ensures WithoutWakes(a + b) == WithoutWakes(a) + WithoutWakes(b)
  {
    if b == [] {
      assert a + b == a;
    } else {
      WithoutWakesConcat(a, b[..|b| - 1]);
      assert (a + b)[..|a + b| - 1] == a + b[..|b| - 1];
    }
  }

  lemma WakesAreNoInput(m: Micro, a: Action)
    ensures WithoutWakes(Serialized(m, a)) == Input(a)
  {
    var events := Serialized(m, a);
    if events != [] {
      assert WithoutWakes(events[..|events| - 1]) == [];
    }
  }

  lemma {:induction false} SerializeKeepsInputs(actions: seq<Action>)
    ensures WithoutWakes(Serialize(actions)) == Inputs(actions)
  {
    if actions != [] {
      var before, a := actions[..|actions| - 1], actions[|actions| - 1];
      SerializeKeepsInputs(before);
      WithoutWakesConcat(Serialize(before), Serialized(After(before), a));
      WakesAreNoInput(After(before), a);
    }
  }

  /** The reduction: between wake-ups and outside the receivers' blocks, logs,
      cursors and everything sent are those of an undisturbed run with the same
      publishes and toggles in the same order. */
  lemma ExclusionMakesWakesAtomic(actions: seq<Action>)
    requires IsMicroRun(actions) && Exclusive(actions)
    requires After(actions).pc.Idle? && After(actions).resets == map[]
    ensures IsRun(Serialize(actions))
    ensures After(actions).base == Run(Serialize(actions))
    ensures WithoutWakes(Serialize(actions)) == Inputs(actions)
  {
    ExclusiveTracks(actions);
    SerializeKeepsInputs(actions);
  }
}
