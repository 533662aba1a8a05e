/** How little exclusion one subscription needs. Whatever other threads do with
    other topics and for other users, and even while messages are appended to
    the topic being sent, a user sees of a topic what some run with undivided
    wake-ups shows, as long as a few moments of that one pair are kept apart. */
module BrokerPairs {
  import opened BrokerModel
  import opened BrokerEpochs
  import opened BrokerMicro
  import opened BrokerReduction

  /** The moments: no append to `t` between its last test and the second reading
      of its size, no write of the receiver to the pair while the sender is at
      it, and no visit of the sender between the receiver's two writes. */
  predicate Apart(m: Micro, a: Action, id: int, t: Topic) {
    var at := Standing(m.pc, id, t);
    && (a.Append? && a.topic == t ==> !at.Sizing?)
    && (a == Request(id, t) || (a == Reset(id) && Pending(m, id, t)) ==> at.Choosing?)
    && (a == Choose(t) && m.pc.Body? && m.pc.id == id ==> !Pending(m, id, t))
  }

  predicate KeptApart(actions: seq<Action>, id: int, t: Topic) {
    actions != [] ==>
      && KeptApart(actions[..|actions| - 1], id, t)
      && Apart(After(actions[..|actions| - 1]), actions[|actions| - 1], id, t)
  }

  /** Some order of the elements of `keys`. */
  ghost function Order(keys: set<Topic>): seq<Topic> {
    if keys == {} then []
    else
      var t :| t in keys;
      Order(keys - {t}) + [t]
  }

  lemma {:induction false} OrderEnumerates(keys: set<Topic>)
    ensures Enumerates(Order(keys), keys)
  {
    if keys != {} {
      var t :| t in keys && Order(keys) == Order(keys - {t}) + [t];
      OrderEnumerates(keys - {t});
    }
  }

  /** The undivided run: a wake-up counts as happening when the sender reads the
      size of `t` for the second time. */
  ghost function Placed(m: Micro, a: Action, q: State, id: int, t: Topic): seq<Event> {
    match a
    case Append(u, c) => [Publish(u, c)]
    case Request(i, u) => [Toggle(i, u)]
    case Advance => if Standing(m.pc, id, t).Sizing? then [Wake(id, Order(Subscriptions(q, id).Keys))] else []
    case _ => []
  }

  ghost function Undivided(actions: seq<Action>, id: int, t: Topic): seq<Event> {
    if actions == [] then []
    else
      var before := actions[..|actions| - 1];
      var events := Undivided(before, id, t);
      events + Placed(After(before), actions[|actions| - 1], Run(events), id, t)
  }

  /** `q` is what the undivided run shows, `v` what there is. */
  ghost predicate Follows(pending: bool, v: View, at: At, q: View) {
    && q.log == v.log && q.known == v.known
    && (!at.Choosing? ==> !pending && v.known)
    && match at
       case Choosing =>
         if pending then v.entry.on && q.entry == Entry(true, 0) && q.stream == v.stream else v == q
       case Read(_, copy) => v == q && copy == v.entry
       case Testing(_, i) => SentSoFar(v, q, i)
       case Sending(_, i) => SentSoFar(v, q, i) && i < |v.log|
       case Sizing(_) => SentSoFar(v, q, |v.log|)
       case Writing(_, n) => v.entry.on && q.entry == Entry(true, n) && q.stream == v.stream
  }

  ghost predicate SentSoFar(v: View, q: View, i: nat) {
    && q.entry == v.entry && q.entry.on
    && q.entry.cursor <= i <= |q.log| && q.entry.cursor < |q.log|
    && v.stream == q.stream + q.log[q.entry.cursor..i]
  }

  ghost predicate FollowsAt(m: Micro, q: State, id: int, t: Topic) {
    Follows(Pending(m, id, t), ViewOf(m.base, id, t), Standing(m.pc, id, t), ViewOf(q, id, t))
  }

  lemma AppendFollows(m: Micro, u: Topic, c: Content, q: State, id: int, t: Topic)
    requires FollowsAt(m, q, id, t) && Apart(m, Append(u, c), id, t)
    ensures FollowsAt(Next(m, Append(u, c)), BrokerModel.Append(q, u, c), id, t)
  {
    ViewAfterAppend(m.base, u, c, id, t);
    ViewAfterAppend(q, u, c, id, t);
    var log, at := Log(q, t), Standing(m.pc, id, t);
    if u == t && (at.Testing? || at.Sending?) {
      assert (log + [c])[EntryOf(q, id, t).cursor..at.i] == log[EntryOf(q, id, t).cursor..at.i];
    }
  }

  lemma RequestFollows(m: Micro, i: int, u: Topic, q: State, id: int, t: Topic)
    requires FollowsAt(m, q, id, t) && Apart(m, Request(i, u), id, t) && Can(m, Request(i, u))
    ensures FollowsAt(Next(m, Request(i, u)), Flip(q, i, u), id, t)
  {
    RequestView(m, i, u, id, t);
    ViewAfterFlip(q, i, u, id, t);
    var m' := Next(m, Request(i, u));
    if id == i && t == u {
      var v := ViewOf(m.base, id, t);
      assert !Pending(m, id, t) && v == ViewOf(q, id, t);
      assert Pending(m', id, t) <==> v.known && !v.entry.on;
    } else {
      assert Pending(m', id, t) == Pending(m, id, t);
    }
  }

  lemma ResetFollows(m: Micro, i: int, q: State, id: int, t: Topic)
    requires FollowsAt(m, q, id, t) && Apart(m, Reset(i), id, t) && Can(m, Reset(i))
    ensures FollowsAt(Next(m, Reset(i)), q, id, t)
  {
    var u := m.resets[i];
    ViewAfterSetEntry(m.base, i, u, EntryOf(m.base, i, u).(cursor := 0), id, t);
  }

  lemma OneMoreSoFar(v: View, v': View, q: View, i: nat)
    requires SentSoFar(v, q, i) && i < |v.log| && v.log == q.log
    requires v' == v.(stream := v.stream + [v.log[i]])
    ensures SentSoFar(v', q, i + 1)
  {
    assert q.log[q.entry.cursor..i + 1] == q.log[q.entry.cursor..i] + [q.log[i]];
  }

  lemma SentFollows(pending: bool, v: View, v': View, t: Topic, i: nat, q: View)
    requires Follows(pending, v, Sending(t, i), q) && v' == v.(stream := v.stream + [v.log[i]])
    ensures Follows(pending, v', Testing(t, i + 1), q)
  {
    OneMoreSoFar(v, v', q, i);
  }

  lemma SendFollows(m: Micro, q: State, id: int, t: Topic)
    requires FollowsAt(m, q, id, t) && Standing(m.pc, id, t).Sending?
    ensures FollowsAt(Next(m, Advance), q, id, t)
  {
    var v, v' := ViewOf(m.base, id, t), ViewOf(Next(m, Advance).base, id, t);
    SendView(m, id, t);
    SentFollows(Pending(m, id, t), v, v', t, m.pc.at.i, ViewOf(q, id, t));
  }

  /** Reading the size again completes the wake-up of the undivided run. */
  lemma SizeFollows(m: Micro, q: State, order: seq<Topic>, id: int, t: Topic)
    requires FollowsAt(m, q, id, t) && Standing(m.pc, id, t).Sizing? && Enabled(q, Wake(id, order))
    ensures FollowsAt(Next(m, Advance), BrokerModel.Step(q, Wake(id, order)), id, t)
  {
    ViewAfterEnter(q, id, id, t);
    VisitsEffect(Enter(q, id), id, order, id, t);
    assert t in order;
    var log := Log(q, t);
    assert log[EntryOf(q, id, t).cursor..|log|] == log[EntryOf(q, id, t).cursor..];
  }

  lemma NothingSoFar(v: View)
    requires v.entry.on && v.entry.cursor < |v.log|
    ensures SentSoFar(v, v, v.entry.cursor)
  {
    assert v.stream + [] == v.stream;
  }

  lemma ReadFollows(m: Micro, q: State, id: int, t: Topic)
    requires FollowsAt(m, q, id, t) && Standing(m.pc, id, t).Read?
    ensures FollowsAt(Next(m, Advance), q, id, t)
  {
    var v := ViewOf(m.base, id, t);
    AdvanceView(m, id, t);
    if v.entry.on && v.entry.cursor < |v.log| {
      NothingSoFar(v);
    }
  }

  lemma AdvanceFollows(m: Micro, q: State, id: int, t: Topic)
    requires FollowsAt(m, q, id, t) && Can(m, Advance) && !Standing(m.pc, id, t).Sizing?
    ensures FollowsAt(Next(m, Advance), q, id, t)
  {
    match Standing(m.pc, id, t)
    case Read(_, _) => ReadFollows(m, q, id, t);
    case Sending(_, _) => SendFollows(m, q, id, t);
    case _ => AdvanceView(m, id, t);
  }

  /** The undivided run goes on with what step `a` is placed as. */
  ghost predicate GoesOn(m: Micro, a: Action, events: seq<Event>, id: int, t: Topic) {
    var events' := events + Placed(m, a, Run(events), id, t);
    IsRun(events') && FollowsAt(Next(m, a), Run(events'), id, t)
  }

  lemma AnyAdvanceFollows(m: Micro, events: seq<Event>, id: int, t: Topic)
    requires IsRun(events) && FollowsAt(m, Run(events), id, t) && Can(m, Advance)
    ensures GoesOn(m, Advance, events, id, t)
  {
    var q := Run(events);
    if Standing(m.pc, id, t).Sizing? {
      var order := Order(Subscriptions(q, id).Keys);
      OrderEnumerates(Subscriptions(q, id).Keys);
      OneMoreEvent(events, Wake(id, order));
      SizeFollows(m, q, order, id, t);
    } else {
      AdvanceFollows(m, q, id, t);
      assert events + [] == events;
    }
  }

  lemma InputFollows(m: Micro, a: Action, events: seq<Event>, id: int, t: Topic)
    requires IsRun(events) && FollowsAt(m, Run(events), id, t) && Can(m, a) && Apart(m, a, id, t)
    requires a.Append? || a.Request?
    ensures GoesOn(m, a, events, id, t)
  {
    match a
    case Append(u, c) =>
      OneMoreEvent(events, Publish(u, c));
      AppendFollows(m, u, c, Run(events), id, t);
    case Request(i, u) =>
      OneMoreEvent(events, Toggle(i, u));
      RequestFollows(m, i, u, Run(events), id, t);
  }

  lemma LoopFollows(m: Micro, a: Action, q: State, id: int, t: Topic)
    requires FollowsAt(m, q, id, t) && Can(m, a) && Apart(m, a, id, t) && (a.Begin? || a.Choose? || a.Finish?)
    ensures FollowsAt(Next(m, a), q, id, t)
  {
    if a.Begin? {
      ViewAfterEnter(m.base, a.id, id, t);
    }
  }

  lemma StepFollows(m: Micro, a: Action, events: seq<Event>, id: int, t: Topic)
    requires IsRun(events) && FollowsAt(m, Run(events), id, t) && Can(m, a) && Apart(m, a, id, t)
    ensures GoesOn(m, a, events, id, t)
  {
    if a.Append? || a.Request? {
      InputFollows(m, a, events, id, t);
    } else if a.Advance? {
      AnyAdvanceFollows(m, events, id, t);
    } else {
      assert events + [] == events;
      if a.Reset? {
        ResetFollows(m, a.id, Run(events), id, t);
      } else {
        LoopFollows(m, a, Run(events), id, t);
      }
    }
  }

  lemma {:induction false} UndividedFollows(actions: seq<Action>, id: int, t: Topic)
    requires IsMicroRun(actions) && KeptApart(actions, id, t)
    ensures IsRun(Undivided(actions, id, t)) && FollowsAt(After(actions), Run(Undivided(actions, id, t)), id, t)
  {
    if actions != [] {
      var before := actions[..|actions| - 1];
      UndividedFollows(before, id, t);
      StepFollows(After(before), actions[|actions| - 1], Undivided(before, id, t), id, t);
    }
  }

  lemma PlacedInput(m: Micro, a: Action, q: State, id: int, t: Topic)
    ensures WithoutWakes(Placed(m, a, q, id, t)) == Input(a)
  {
    var events := Placed(m, a, q, id, t);
    if events != [] {
      assert WithoutWakes(events[..|events| - 1]) == [];
    }
  }

  lemma {:induction false} UndividedKeepsInputs(actions: seq<Action>, id: int, t: Topic)
    ensures WithoutWakes(Undivided(actions, id, t)) == Inputs(actions)
  {
    if actions != [] {
      var before, a := actions[..|actions| - 1], actions[|actions| - 1];
      var events := Undivided(before, id, t);
      UndividedKeepsInputs(before, id, t);
      WithoutWakesConcat(events, Placed(After(before), a, Run(events), id, t));
      PlacedInput(After(before), a, Run(events), id, t);
    }
  }

  /** The reduction for one user and one topic: log, flag, cursor and everything
      sent are those of an undivided run with the same publishes and toggles in
      the same order, so what has been sent since the latest activation is the
      log up to the cursor. */
  lemma PairSeesUndividedWakes(actions: seq<Action>, id: int, t: Topic)
    requires IsMicroRun(actions) && KeptApart(actions, id, t)
    requires Standing(After(actions).pc, id, t).Choosing? && !Pending(After(actions), id, t)
    ensures var events, s := Undivided(actions, id, t), After(actions).base;
            && IsRun(events)
            && WithoutWakes(events) == Inputs(actions)
            && ViewOf(Run(events), id, t) == ViewOf(s, id, t)
            && EntryOf(s, id, t).cursor <= |Log(s, t)|
            && Mark(events, id, t) <= |Project(Outbox(s, id), t)|
            && Project(Outbox(s, id), t)[Mark(events, id, t)..] == Log(s, t)[..EntryOf(s, id, t).cursor]
  {
    UndividedFollows(actions, id, t);
    UndividedKeepsInputs(actions, id, t);
    ExactlyOnceInOrder(Undivided(actions, id, t), id, t);
  }
}
