/** The sender's loop and the receiver's block cut at every point where another
    thread can run. The publisher holds only `mutex_message`, the receiver no
    lock at all, so appends and the receiver's writes may fall between any two
    of these steps; senders hold `mutex_sender` for the whole wake-up, so at
    most one is inside. */
module BrokerMicro {
  import opened BrokerModel

  datatype At =
    | Choosing                            // about to take the next pair of the map
    | Read(topic: Topic, copy: Entry)     // pair copied; both tests still to come
    | Testing(topic: Topic, i: nat)       // about to test i against the log's size
    | Sending(topic: Topic, i: nat)       // test passed; about to read entry i and send
    | Sizing(topic: Topic)                // test failed; about to read the size again
    | Writing(topic: Topic, size: nat)    // about to store that size as the cursor

  /** `due` are the keys when the loop began, `seen` the topics dealt with. */
  datatype Pc = Idle | Body(id: int, due: set<Topic>, seen: seq<Topic>, at: At)

  /** `resets[id]` is the topic whose flag the receiver of `id` has turned on
      again and whose cursor it has yet to set back. */
  datatype Micro = Micro(base: State, pc: Pc, resets: map<int, Topic>)

  const START := Micro(EMPTY_BROKER, Idle, map[])

  /** `Request` is all of the receiver's block but the last write of a
      re-subscription, which is `Reset`. */
  datatype Action =
    | Append(topic: Topic, content: Content)
    | Request(id: int, topic: Topic)
    | Reset(id: int)
    | Begin(id: int)
    | Choose(topic: Topic)
    | Advance
    | Finish

  /** A map's iterator meets each key at most once, and never skips a key that
      was there from the start; keys are never removed. */
  ghost predicate Can(m: Micro, a: Action) {
    match a
    case Append(_, _) => true
    case Request(id, _) => id !in m.resets
    case Reset(id) => id in m.resets
    case Begin(_) => m.pc.Idle?
    case Choose(t) =>
      m.pc.Body? && m.pc.at.Choosing? && t in Subscriptions(m.base, m.pc.id) && t !in m.pc.seen
    case Advance => m.pc.Body? && !m.pc.at.Choosing?
    case Finish => m.pc.Body? && m.pc.at.Choosing? && forall t | t in m.pc.due :: t in m.pc.seen
  }

  function Next(m: Micro, a: Action): Micro {
    match a
    case Append(t, c) => m.(base := BrokerModel.Append(m.base, t, c))
    case Request(id, t) => Requested(m, id, t)
    case Reset(id) =>
      if id !in m.resets then m
      else
        var t := m.resets[id];
        m.(base := SetEntry(m.base, id, t, EntryOf(m.base, id, t).(cursor := 0)), resets := m.resets - {id})
    case Begin(id) =>
      m.(base := Enter(m.base, id), pc := Body(id, Subscriptions(m.base, id).Keys, [], Choosing))
    case Choose(t) =>
      if m.pc.Body? then m.(pc := m.pc.(at := Read(t, EntryOf(m.base, m.pc.id, t)))) else m
    case Advance => if m.pc.Body? then Advanced(m, m.pc.id, m.pc.at) else m
    case Finish => m.(pc := Idle)
  }

  /** The entry is created on and unread, or turned off, or turned on with its
      old cursor still in place. */
  function Requested(m: Micro, id: int, t: Topic): Micro {
    var e := EntryOf(m.base, id, t);
    if t !in Subscriptions(m.base, id) then m.(base := SetEntry(m.base, id, t, Entry(true, 0)))
    else if e.on then m.(base := SetEntry(m.base, id, t, e.(on := false)))
    else m.(base := SetEntry(m.base, id, t, e.(on := true)), resets := m.resets[id := t])
  }

  function Advanced(m: Micro, id: int, at: At): Micro
    requires m.pc.Body?
  {
    match at
    case Choosing => m
    case Read(t, copy) =>
      if !copy.on then Left(m, m.base, t)
      else if copy.cursor >= |Log(m.base, t)| then Left(m, Touch(m.base, t), t)
      else m.(base := Touch(m.base, t), pc := m.pc.(at := Testing(t, copy.cursor)))
    case Testing(t, i) => m.(pc := m.pc.(at := if i < |Log(m.base, t)| then Sending(t, i) else Sizing(t)))
    case Sending(t, i) =>
      // Entry i is there: see SenderReadsInBounds.
      if i >= |Log(m.base, t)| then m
      else m.(base := Emit(m.base, id, Packets(t, [Log(m.base, t)[i]])), pc := m.pc.(at := Testing(t, i + 1)))
    case Sizing(t) => m.(pc := m.pc.(at := Writing(t, |Log(m.base, t)|)))
    case Writing(t, n) => Left(m, SetEntry(m.base, id, t, EntryOf(m.base, id, t).(cursor := n)), t)
  }

  /** Done with topic `t`, back at the head of the loop. */
  function Left(m: Micro, base: State, t: Topic): Micro
    requires m.pc.Body?
  {
    m.(base := base, pc := m.pc.(seen := m.pc.seen + [t], at := Choosing))
  }

  function After(actions: seq<Action>): Micro {
    if actions == [] then START
    else Next(After(actions[..|actions| - 1]), actions[|actions| - 1])
  }

  ghost predicate IsMicroRun(actions: seq<Action>) {
    actions != [] ==>
      && IsMicroRun(actions[..|actions| - 1])
      && Can(After(actions[..|actions| - 1]), actions[|actions| - 1])
  }

  // ------------------------------------- what one pair (id, t) sees of a step

  /** Where the sender of `id` stands with respect to topic `t`. */
  function Standing(pc: Pc, id: int, t: Topic): At {
    if pc.Body? && pc.id == id && !pc.at.Choosing? && pc.at.topic == t then pc.at else Choosing
  }

  /** The flag is on and the cursor not yet set back. */
  predicate Pending(m: Micro, id: int, t: Topic) {
    id in m.resets && m.resets[id] == t
  }

  /** `a` starts a new epoch of `id` on `t`: the write that sets the cursor to
      the start of the log, for a topic known before the second of the two. */
  predicate Activates(m: Micro, a: Action, id: int, t: Topic) {
    (a == Request(id, t) && t !in Subscriptions(m.base, id)) || (a == Reset(id) && Pending(m, id, t))
  }

  predicate Sends(m: Micro, a: Action, id: int, t: Topic) {
    a.Advance? && Standing(m.pc, id, t).Sending?
  }

  /** How many log entries of the current epoch step `a` makes the sender skip
      for good. Only three races do so: an append between the last failing test
      and the second reading of the size; a reset while the sender is already
      past the start of the log; and starting to send from a cursor that was
      copied before a reset. */
  function Loss(m: Micro, a: Action, id: int, t: Topic): nat {
    var at, log := Standing(m.pc, id, t), Log(m.base, t);
    if a.Append? && a.topic == t && at.Sizing? then 1
    else if Activates(m, a, id, t) then
      (match at
       case Testing(_, i) => i
       case Sending(_, i) => i
       case Sizing(_) => |log|
       case Writing(_, n) => n
       case _ => 0)
    else if a.Advance? && at.Read? && at.copy.on && at.copy.cursor < |log|
            && EntryOf(m.base, id, t).cursor < at.copy.cursor then
      at.copy.cursor - EntryOf(m.base, id, t).cursor
    else 0
  }

  /** Log indices sent to `id` on `t` in earlier epochs and in the current one,
      and the number of entries skipped in the current one. */
  datatype History = History(earlier: seq<nat>, current: seq<nat>, skipped: nat)

  function Record(m: Micro, a: Action, id: int, t: Topic, h: History): History {
    if Activates(m, a, id, t) then History(h.earlier + h.current, [], Loss(m, a, id, t))
    else History(h.earlier,
                 if Sends(m, a, id, t) then h.current + [m.pc.at.i] else h.current,
                 h.skipped + Loss(m, a, id, t))
  }

  function HistoryOf(actions: seq<Action>, id: int, t: Topic): History {
    if actions == [] then History([], [], 0)
    else
      var before := actions[..|actions| - 1];
      Record(After(before), actions[|actions| - 1], id, t, HistoryOf(before, id, t))
  }

  // -------------------------------------------------------------- invariant

  /** Everything sent in the current epoch lies below this index. */
  function Bound(v: View, at: At): nat {
    match at
    case Choosing => v.entry.cursor
    case Read(_, _) => v.entry.cursor
    case Testing(_, i) => i
    case Sending(_, i) => i
    case Sizing(_) => |v.log|
    case Writing(_, n) => n
  }

  ghost predicate Increasing(s: seq<nat>) {
    forall i, j | 0 <= i < j < |s| :: s[i] < s[j]
  }

  ghost predicate Below(s: seq<nat>, bound: nat) {
    forall i | 0 <= i < |s| :: s[i] < bound
  }

  function Gather(log: seq<Content>, indices: seq<nat>): seq<Content>
    requires Below(indices, |log|)
  {
    seq(|indices|, i requires 0 <= i < |indices| => log[indices[i]])
  }

  ghost predicate Inv(v: View, at: At, h: History) {
    && Bound(v, at) <= |v.log|
    && v.entry.cursor <= |v.log|
    && Increasing(h.current)
    && Below(h.current, Bound(v, at))
    && |h.current| + h.skipped == Bound(v, at)
    && Below(h.earlier, |v.log|)
    && v.stream == Gather(v.log, h.earlier + h.current)
    && (at.Sending? ==> at.i < |v.log|)
    && (at.Read? ==> at.copy.cursor <= |v.log| && v.entry.cursor <= at.copy.cursor)
  }

  ghost predicate InvAt(m: Micro, h: History, id: int, t: Topic) {
    Inv(ViewOf(m.base, id, t), Standing(m.pc, id, t), h)
  }

  lemma AppendKeeps(m: Micro, u: Topic, c: Content, h: History, id: int, t: Topic)
    requires InvAt(m, h, id, t)
    ensures InvAt(Next(m, Append(u, c)), Record(m, Append(u, c), id, t, h), id, t)
  {
    ViewAfterAppend(m.base, u, c, id, t);
    var v := ViewOf(m.base, id, t);
    assert Gather(v.log + [c], h.earlier + h.current) == Gather(v.log, h.earlier + h.current);
  }

  lemma NewEpoch(v: View, v': View, at: At, h: History)
    requires Inv(v, at, h) && v'.entry.cursor == 0 && v'.log == v.log && v'.stream == v.stream
    ensures Inv(v', at, History(h.earlier + h.current, [], Bound(v', at)))
  {
    assert (h.earlier + h.current) + [] == h.earlier + h.current;
  }

  /** A request touches one entry, and its cursor only when it creates it. */
  lemma RequestView(m: Micro, i: int, u: Topic, id: int, t: Topic)
    ensures var v, v' := ViewOf(m.base, id, t), ViewOf(Next(m, Request(i, u)).base, id, t);
            if id != i || t != u then v' == v
            else v' == v.(known := true, entry := Entry(!v.known || !v.entry.on, v.entry.cursor))
  {
    var m' := Next(m, Request(i, u));
    ViewAfterSetEntry(m.base, i, u, EntryOf(m'.base, i, u), id, t);
    assert m'.base == SetEntry(m.base, i, u, EntryOf(m'.base, i, u));
  }

  lemma NewFlag(v: View, v': View, at: At, h: History)
    requires Inv(v, at, h) && v'.log == v.log && v'.stream == v.stream && v'.entry.cursor == v.entry.cursor
    ensures Inv(v', at, h)
  {
  }

  lemma RequestKeeps(m: Micro, i: int, u: Topic, h: History, id: int, t: Topic)
    requires InvAt(m, h, id, t)
    ensures InvAt(Next(m, Request(i, u)), Record(m, Request(i, u), id, t, h), id, t)
  {
    var v, v', at := ViewOf(m.base, id, t), ViewOf(Next(m, Request(i, u)).base, id, t), Standing(m.pc, id, t);
    RequestView(m, i, u, id, t);
    if Activates(m, Request(i, u), id, t) {
      NewEpoch(v, v', at, h);
    } else {
      NewFlag(v, v', at, h);
      assert Record(m, Request(i, u), id, t, h) == h;
    }
  }

  /** A reset touches the cursor of one entry. */
  lemma ResetView(m: Micro, i: int, id: int, t: Topic)
    requires i in m.resets
    ensures var v, v' := ViewOf(m.base, id, t), ViewOf(Next(m, Reset(i)).base, id, t);
            if id != i || t != m.resets[i] then v' == v
            else v' == v.(known := true, entry := v.entry.(cursor := 0))
  {
    var u := m.resets[i];
    ViewAfterSetEntry(m.base, i, u, EntryOf(m.base, i, u).(cursor := 0), id, t);
  }

  lemma ResetKeeps(m: Micro, i: int, h: History, id: int, t: Topic)
    requires InvAt(m, h, id, t) && i in m.resets
    ensures InvAt(Next(m, Reset(i)), Record(m, Reset(i), id, t, h), id, t)
  {
    var v, v', at := ViewOf(m.base, id, t), ViewOf(Next(m, Reset(i)).base, id, t), Standing(m.pc, id, t);
    ResetView(m, i, id, t);
    if Activates(m, Reset(i), id, t) {
      NewEpoch(v, v', at, h);
    } else {
      assert Record(m, Reset(i), id, t, h) == h;
    }
  }

  lemma GatherOneMore(log: seq<Content>, indices: seq<nat>, i: nat)
    requires Below(indices, |log|) && i < |log|
    ensures Below(indices + [i], |log|)
    ensures Gather(log, indices + [i]) == Gather(log, indices) + [log[i]]
  {
  }

  lemma OneMoreSent(v: View, t: Topic, i: nat, h: History)
    requires Inv(v, Sending(t, i), h)
    ensures Inv(v.(stream := v.stream + [v.log[i]]), Testing(t, i + 1), h.(current := h.current + [i]))
  {
    GatherOneMore(v.log, h.earlier + h.current, i);
    assert h.earlier + (h.current + [i]) == (h.earlier + h.current) + [i];
  }

  /** The sender is busy with another topic, or for another user. */
  predicate Elsewhere(m: Micro, id: int, t: Topic) {
    m.pc.Body? && !m.pc.at.Choosing? && !(m.pc.id == id && m.pc.at.topic == t)
  }

  /** What a step of the sender other than a send to `id` on `t` does to their
      view. */
  lemma AdvanceView(m: Micro, id: int, t: Topic)
    requires Can(m, Advance) && !Standing(m.pc, id, t).Sending?
    ensures var v, at, v' := ViewOf(m.base, id, t), Standing(m.pc, id, t), ViewOf(Next(m, Advance).base, id, t);
            v' == if at.Writing? then v.(known := true, entry := v.entry.(cursor := at.size)) else v
  {
    var i, u := m.pc.id, m.pc.at.topic;
    match m.pc.at
    case Read(_, _) => ViewAfterTouch(m.base, u, id, t);
    case Testing(_, _) =>
    case Sending(_, k) =>
      if k < |Log(m.base, u)| { ViewAfterEmit(m.base, i, u, [Log(m.base, u)[k]], id, t); }
    case Sizing(_) =>
    case Writing(_, n) => ViewAfterSetEntry(m.base, i, u, EntryOf(m.base, i, u).(cursor := n), id, t);
  }

  lemma AdvanceElsewhere(m: Micro, h: History, id: int, t: Topic)
    requires InvAt(m, h, id, t) && Elsewhere(m, id, t)
    ensures InvAt(Next(m, Advance), Record(m, Advance, id, t, h), id, t)
  {
    AdvanceView(m, id, t);
  }

  lemma SendView(m: Micro, id: int, t: Topic)
    requires Standing(m.pc, id, t).Sending? && m.pc.at.i < |Log(m.base, t)|
    ensures var i, v, m' := m.pc.at.i, ViewOf(m.base, id, t), Next(m, Advance);
            && ViewOf(m'.base, id, t) == v.(stream := v.stream + [v.log[i]])
            && Standing(m'.pc, id, t) == Testing(t, i + 1)
  {
    ViewAfterEmit(m.base, id, t, [Log(m.base, t)[m.pc.at.i]], id, t);
  }

  lemma SendKeeps(m: Micro, h: History, id: int, t: Topic)
    requires InvAt(m, h, id, t) && Standing(m.pc, id, t).Sending?
    ensures InvAt(Next(m, Advance), Record(m, Advance, id, t, h), id, t)
  {
    SendView(m, id, t);
    OneMoreSent(ViewOf(m.base, id, t), t, m.pc.at.i, h);
  }

  lemma StartSending(v: View, t: Topic, copy: Entry, h: History)
    requires Inv(v, Read(t, copy), h)
    ensures Inv(v, Choosing, h)
    ensures copy.cursor < |v.log| ==>
              Inv(v, Testing(t, copy.cursor), h.(skipped := h.skipped + (copy.cursor - v.entry.cursor)))
  {
  }

  lemma ReadKeeps(m: Micro, h: History, id: int, t: Topic)
    requires InvAt(m, h, id, t) && Standing(m.pc, id, t).Read?
    ensures InvAt(Next(m, Advance), Record(m, Advance, id, t, h), id, t)
  {
    var copy := m.pc.at.copy;
    ViewAfterTouch(m.base, t, id, t);
    StartSending(ViewOf(m.base, id, t), t, copy, h);
    if !copy.on || copy.cursor >= |Log(m.base, t)| {
      assert Record(m, Advance, id, t, h) == h.(skipped := h.skipped + 0);
    } else {
      assert Standing(Next(m, Advance).pc, id, t) == Testing(t, copy.cursor);
    }
  }

  lemma WriteKeeps(m: Micro, h: History, id: int, t: Topic)
    requires InvAt(m, h, id, t) && Standing(m.pc, id, t).Writing?
    ensures InvAt(Next(m, Advance), Record(m, Advance, id, t, h), id, t)
  {
    var n := m.pc.at.size;
    ViewAfterSetEntry(m.base, id, t, EntryOf(m.base, id, t).(cursor := n), id, t);
  }

  lemma OthersKeep(m: Micro, a: Action, h: History, id: int, t: Topic)
    requires InvAt(m, h, id, t) && Can(m, a) && (a.Append? || a.Request? || a.Reset?)
    ensures InvAt(Next(m, a), Record(m, a, id, t, h), id, t)
  {
    match a
    case Append(u, c) => AppendKeeps(m, u, c, h, id, t);
    case Request(i, u) => RequestKeeps(m, i, u, h, id, t);
    case Reset(i) => ResetKeeps(m, i, h, id, t);
  }

  lemma LoopKeeps(m: Micro, a: Action, h: History, id: int, t: Topic)
    requires InvAt(m, h, id, t) && Can(m, a) && (a.Begin? || a.Choose? || a.Finish?)
    ensures InvAt(Next(m, a), Record(m, a, id, t, h), id, t)
  {
    if a.Begin? {
      ViewAfterEnter(m.base, a.id, id, t);
    }
  }

  lemma TestKeeps(m: Micro, h: History, id: int, t: Topic)
    requires InvAt(m, h, id, t) && (Standing(m.pc, id, t).Testing? || Standing(m.pc, id, t).Sizing?)
    ensures InvAt(Next(m, Advance), Record(m, Advance, id, t, h), id, t)
  {
  }

  lemma AdvanceKeeps(m: Micro, h: History, id: int, t: Topic)
    requires InvAt(m, h, id, t) && Can(m, Advance)
    ensures InvAt(Next(m, Advance), Record(m, Advance, id, t, h), id, t)
  {
    match Standing(m.pc, id, t)
    case Choosing => AdvanceElsewhere(m, h, id, t);
    case Read(_, _) => ReadKeeps(m, h, id, t);
    case Sending(_, _) => SendKeeps(m, h, id, t);
    case Writing(_, _) => WriteKeeps(m, h, id, t);
    case _ => TestKeeps(m, h, id, t);
  }

  lemma StepKeeps(m: Micro, a: Action, h: History, id: int, t: Topic)
    requires InvAt(m, h, id, t) && Can(m, a)
    ensures InvAt(Next(m, a), Record(m, a, id, t, h), id, t)
  {
    if a.Append? || a.Request? || a.Reset? {
      OthersKeep(m, a, h, id, t);
    } else if a.Advance? {
      AdvanceKeeps(m, h, id, t);
    } else {
      LoopKeeps(m, a, h, id, t);
    }
  }

  lemma {:induction false} MicroInvariant(actions: seq<Action>, id: int, t: Topic)
    requires IsMicroRun(actions)
    ensures InvAt(After(actions), HistoryOf(actions, id, t), id, t)
  {
    if actions != [] {
      var before := actions[..|actions| - 1];
      MicroInvariant(before, id, t);
      StepKeeps(After(before), actions[|actions| - 1], HistoryOf(before, id, t), id, t);
    }
  }

  // ------------------------------------------------------------ main results

  /** Whatever interleaves with the sender, it never repeats or reorders a
      message between two settings of the cursor to the start of the log, and
      everything sent is what the final log holds at the index it was read
      from. */
  lemma AtMostOnceInOrder(actions: seq<Action>, id: int, t: Topic)
    requires IsMicroRun(actions)
    ensures var s, h := After(actions).base, HistoryOf(actions, id, t);
            && EntryOf(s, id, t).cursor <= |Log(s, t)|
            && Increasing(h.current)
            && Below(h.earlier + h.current, |Log(s, t)|)
            && Project(Outbox(s, id), t) == Gather(Log(s, t), h.earlier + h.current)
  {
    MicroInvariant(actions, id, t);
  }

  lemma {:induction false} FullRangeIsIdentity(s: seq<nat>, bound: nat)
    requires Increasing(s) && Below(s, bound)
    ensures |s| <= bound
    ensures |s| == bound <==> s == seq(bound, i => i)
  {
    if s != [] {
      var init, last := s[..|s| - 1], s[|s| - 1];
      FullRangeIsIdentity(init, last);
      if |s| == bound {
        assert s == init + [last] == seq(bound, i => i);
      }
    }
  }

  /** Between wake-ups the cursor counts what was sent in the epoch plus what a
      race skipped. */
  lemma CursorAccountsForLosses(actions: seq<Action>, id: int, t: Topic)
    requires IsMicroRun(actions) && After(actions).pc.Idle?
    ensures |HistoryOf(actions, id, t).current| + HistoryOf(actions, id, t).skipped
            == EntryOf(After(actions).base, id, t).cursor
  {
    MicroInvariant(actions, id, t);
  }

  /** Action `a` of another thread, or the start of sending, hits the sender of
      `id` at one of the three bad moments for topic `t`. */
  predicate Race(m: Micro, a: Action, id: int, t: Topic) {
    var at, log, e := Standing(m.pc, id, t), Log(m.base, t), EntryOf(m.base, id, t);
    || (a.Append? && a.topic == t && at.Sizing?)
    || (Activates(m, a, id, t) &&
        match at
        case Testing(_, i) => i > 0
        case Sending(_, i) => i > 0
        case Sizing(_) => log != []
        case Writing(_, n) => n > 0
        case _ => false)
    || (a.Advance? && at.Read? && at.copy.on && e.cursor < at.copy.cursor < |log|)
  }

  /** No race since the current epoch of `id` on `t` began, its start included. */
  predicate RaceFree(actions: seq<Action>, id: int, t: Topic) {
    actions != [] ==>
      var before, a := actions[..|actions| - 1], actions[|actions| - 1];
      !Race(After(before), a, id, t) && (Activates(After(before), a, id, t) || RaceFree(before, id, t))
  }

  lemma {:induction false} SkippedIffRace(actions: seq<Action>, id: int, t: Topic)
    ensures HistoryOf(actions, id, t).skipped == 0 <==> RaceFree(actions, id, t)
  {
    if actions != [] {
      SkippedIffRace(actions[..|actions| - 1], id, t);
    }
  }

  /** An epoch has received every message up to its cursor, each once and in
      order, exactly when no race has hit it. */
  lemma GapFreeIffRaceFree(actions: seq<Action>, id: int, t: Topic)
    requires IsMicroRun(actions) && After(actions).pc.Idle?
    ensures HistoryOf(actions, id, t).current == seq(EntryOf(After(actions).base, id, t).cursor, i => i)
            <==> RaceFree(actions, id, t)
  {
    MicroInvariant(actions, id, t);
    FullRangeIsIdentity(HistoryOf(actions, id, t).current, EntryOf(After(actions).base, id, t).cursor);
    SkippedIffRace(actions, id, t);
  }

  /** The sender never reads past the end of a log. */
  lemma {:induction false} SenderReadsInBounds(actions: seq<Action>)
    requires IsMicroRun(actions) && After(actions).pc.Body? && After(actions).pc.at.Sending?
    ensures After(actions).pc.at.i < |Log(After(actions).base, After(actions).pc.at.topic)|
  {
    MicroInvariant(actions, After(actions).pc.id, After(actions).pc.at.topic);
  }
}
