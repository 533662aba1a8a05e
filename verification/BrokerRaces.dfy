/** The races are real: runs of the code as written that lose messages, repeat
    them, or send them to someone who has unsubscribed. */
module BrokerRaces {
  import opened BrokerModel
  import opened BrokerMicro
  import opened BrokerReplays

  const NOTHING := History([], [], 0)

  /** Where a run has got to: the state, the history for one user and topic, and
      what was sent since the flag went on. */
  datatype Point = Point(m: Micro, h: History, since: seq<nat>)

  function PointOf(actions: seq<Action>, id: int, t: Topic): Point {
    Point(After(actions), HistoryOf(actions, id, t), SinceOn(actions, id, t))
  }

  ghost predicate Reachable(p: Point, id: int, t: Topic) {
    exists actions :: IsMicroRun(actions) && PointOf(actions, id, t) == p
  }

  ghost predicate Goes(p: Point, a: Action, q: Point, id: int, t: Topic) {
    Can(p.m, a) && q == Point(Next(p.m, a), Record(p.m, a, id, t, p.h), More(p.m, a, id, t, p.since))
  }

  lemma StartReachable(id: int, t: Topic)
    ensures Reachable(Point(START, NOTHING, []), id, t)
  {
    assert IsMicroRun([]) && PointOf([], id, t) == Point(START, NOTHING, []);
  }

  lemma Step(p: Point, a: Action, q: Point, id: int, t: Topic)
    requires Reachable(p, id, t) && Goes(p, a, q, id, t)
    ensures Reachable(q, id, t)
  {
    var actions :| IsMicroRun(actions) && PointOf(actions, id, t) == p;
    var all := actions + [a];
    assert all[..|all| - 1] == actions && all[|all| - 1] == a;
    assert IsMicroRun(all) && PointOf(all, id, t) == q;
  }

  /** One user who has asked for one topic. */
  function Scene(id: int, t: Topic, log: seq<Content>, e: Entry, sent: seq<Content>): State {
    State(map[t := log], map[id := map[t := e]], if sent == [] then map[] else map[id := Packets(t, sent)])
  }

  /** Its sender at work. */
  function Inside(id: int, t: Topic, at: At): Pc {
    Body(id, {t}, [], at)
  }

  /** A point in it. */
  function InScene(id: int, t: Topic, log: seq<Content>, e: Entry, sent: seq<Content>, pc: Pc, resets: map<int, Topic>,
                   h: History, since: seq<nat>): Point {
    Point(Micro(Scene(id, t, log, e, sent), pc, resets), h, since)
  }

  lemma SceneReads(id: int, t: Topic, log: seq<Content>, e: Entry, sent: seq<Content>)
    ensures var s := Scene(id, t, log, e, sent);
            && Log(s, t) == log && EntryOf(s, id, t) == e
            && t in Subscriptions(s, id) && Subscriptions(s, id).Keys == {t}
            && Enter(s, id) == s && Touch(s, t) == s
  {
  }

  lemma SetEntryInScene(id: int, t: Topic, log: seq<Content>, e: Entry, sent: seq<Content>, e': Entry)
    ensures SetEntry(Scene(id, t, log, e, sent), id, t, e') == Scene(id, t, log, e', sent)
  {
    assert map[t := e][t := e'] == map[t := e'];
  }

  lemma AppendInScene(id: int, t: Topic, log: seq<Content>, e: Entry, sent: seq<Content>, c: Content)
    ensures BrokerModel.Append(Scene(id, t, log, e, sent), t, c) == Scene(id, t, log + [c], e, sent)
  {
  }

  lemma EmitInScene(id: int, t: Topic, log: seq<Content>, e: Entry, sent: seq<Content>, c: Content)
    ensures Emit(Scene(id, t, log, e, sent), id, Packets(t, [c])) == Scene(id, t, log, e, sent + [c])
  {
    assert Packets(t, sent + [c]) == Packets(t, sent) + Packets(t, [c]);
    assert [] + Packets(t, [c]) == Packets(t, [c]);
  }

  // --------------------------------------------------------- the single steps

  lemma GoRequest(id: int, t: Topic, log: seq<Content>, e: Entry, sent: seq<Content>, pc: Pc, h: History,
                  since: seq<nat>)
    ensures Goes(InScene(id, t, log, e, sent, pc, map[], h, since), Request(id, t),
                 if e.on then InScene(id, t, log, e.(on := false), sent, pc, map[], h, since)
                 else InScene(id, t, log, e.(on := true), sent, pc, map[id := t], h, []), id, t)
  {
    SceneReads(id, t, log, e, sent);
    SetEntryInScene(id, t, log, e, sent, e.(on := !e.on));
    assert since + [] == since;
  }

  lemma GoReset(id: int, t: Topic, log: seq<Content>, e: Entry, sent: seq<Content>, pc: Pc, h: History, since: seq<nat>)
    ensures var p := InScene(id, t, log, e, sent, pc, map[id := t], h, since);
            Goes(p, Reset(id), InScene(id, t, log, e.(cursor := 0), sent, pc, map[],
                                  History(h.earlier + h.current, [], Loss(p.m, Reset(id), id, t)), since), id, t)
  {
    SceneReads(id, t, log, e, sent);
    SetEntryInScene(id, t, log, e, sent, e.(cursor := 0));
    assert since + [] == since && map[id := t] - {id} == map[];
  }

  lemma GoAppend(id: int, t: Topic, log: seq<Content>, e: Entry, sent: seq<Content>, pc: Pc, resets: map<int, Topic>,
                 h: History, since: seq<nat>, c: Content)
    ensures var p := InScene(id, t, log, e, sent, pc, resets, h, since);
            Goes(p, Append(t, c), InScene(id, t, log + [c], e, sent, pc, resets,
                                     h.(skipped := h.skipped + Loss(p.m, Append(t, c), id, t)), since), id, t)
  {
    AppendInScene(id, t, log, e, sent, c);
    assert since + [] == since;
  }

  lemma GoBegin(id: int, t: Topic, log: seq<Content>, e: Entry, sent: seq<Content>, resets: map<int, Topic>,
                h: History, since: seq<nat>)
    ensures Goes(InScene(id, t, log, e, sent, Idle, resets, h, since), Begin(id),
                 InScene(id, t, log, e, sent, Inside(id, t, Choosing), resets, h, since), id, t)
  {
    SceneReads(id, t, log, e, sent);
    assert since + [] == since;
  }

  lemma GoChoose(id: int, t: Topic, log: seq<Content>, e: Entry, sent: seq<Content>, resets: map<int, Topic>,
                 h: History, since: seq<nat>)
    ensures Goes(InScene(id, t, log, e, sent, Inside(id, t, Choosing), resets, h, since), Choose(t),
                 InScene(id, t, log, e, sent, Inside(id, t, Read(t, e)), resets, h, since), id, t)
  {
    SceneReads(id, t, log, e, sent);
    assert since + [] == since;
  }

  lemma GoRead(id: int, t: Topic, log: seq<Content>, e: Entry, sent: seq<Content>, resets: map<int, Topic>,
               h: History, since: seq<nat>)
    requires e.on && e.cursor < |log|
    ensures Goes(InScene(id, t, log, e, sent, Inside(id, t, Read(t, e)), resets, h, since), Advance,
                 InScene(id, t, log, e, sent, Inside(id, t, Testing(t, e.cursor)), resets, h, since), id, t)
  {
    SceneReads(id, t, log, e, sent);
    assert since + [] == since;
  }

  lemma GoTest(id: int, t: Topic, log: seq<Content>, e: Entry, sent: seq<Content>, i: nat, resets: map<int, Topic>,
               h: History, since: seq<nat>)
    ensures Goes(InScene(id, t, log, e, sent, Inside(id, t, Testing(t, i)), resets, h, since), Advance,
                 InScene(id, t, log, e, sent, Inside(id, t, if i < |log| then Sending(t, i) else Sizing(t)), resets,
                         h, since), id, t)
  {
    SceneReads(id, t, log, e, sent);
    assert since + [] == since;
  }

  lemma GoSend(id: int, t: Topic, log: seq<Content>, e: Entry, sent: seq<Content>, i: nat, resets: map<int, Topic>,
               h: History, since: seq<nat>)
    requires i < |log|
    ensures Goes(InScene(id, t, log, e, sent, Inside(id, t, Sending(t, i)), resets, h, since), Advance,
                 InScene(id, t, log, e, sent + [log[i]], Inside(id, t, Testing(t, i + 1)), resets,
                    h.(current := h.current + [i]), since + [i]), id, t)
  {
    SceneReads(id, t, log, e, sent);
    EmitInScene(id, t, log, e, sent, log[i]);
  }

  lemma GoSize(id: int, t: Topic, log: seq<Content>, e: Entry, sent: seq<Content>, resets: map<int, Topic>,
               h: History, since: seq<nat>)
    ensures Goes(InScene(id, t, log, e, sent, Inside(id, t, Sizing(t)), resets, h, since), Advance,
                 InScene(id, t, log, e, sent, Inside(id, t, Writing(t, |log|)), resets, h, since), id, t)
  {
    SceneReads(id, t, log, e, sent);
    assert since + [] == since;
  }

  lemma GoWrite(id: int, t: Topic, log: seq<Content>, e: Entry, sent: seq<Content>, n: nat, resets: map<int, Topic>,
                h: History, since: seq<nat>)
    ensures Goes(InScene(id, t, log, e, sent, Inside(id, t, Writing(t, n)), resets, h, since), Advance,
                 InScene(id, t, log, e.(cursor := n), sent, Body(id, {t}, [t], Choosing), resets, h, since), id, t)
  {
    SceneReads(id, t, log, e, sent);
    SetEntryInScene(id, t, log, e, sent, e.(cursor := n));
    assert since + [] == since && [] + [t] == [t];
  }

  lemma GoFinish(id: int, t: Topic, log: seq<Content>, e: Entry, sent: seq<Content>, resets: map<int, Topic>,
                 h: History, since: seq<nat>)
    ensures Goes(InScene(id, t, log, e, sent, Body(id, {t}, [t], Choosing), resets, h, since), Finish,
                 InScene(id, t, log, e, sent, Idle, resets, h, since), id, t)
  {
    assert since + [] == since;
  }

  // ----------------------------------------------------------- whole stretches

  function Range(from: nat, to: nat): seq<nat>
    requires from <= to
  {
    seq(to - from, k requires 0 <= k => from + k)
  }

  lemma MoreOfRange(s: seq<nat>, i: nat, to: nat)
    requires i < to
    ensures s + [i] + Range(i + 1, to) == s + Range(i, to)
  {
    assert [i] + Range(i + 1, to) == Range(i, to);
  }

  lemma SmallRanges()
    ensures [] + Range(0, 1) == [0] && [] + Range(1, 2) == [1] && [] + Range(0, 2) == [0, 1]
    ensures [0] + Range(1, 2) == [0, 1] && [1] + Range(0, 2) == [1, 0, 1]
  {
  }

  lemma TwoContents(a: Content, b: Content)
    ensures [a] + [b] == [a, b] && [a] + [a, b][1..] == [a, b] && [a, b][0..] == [a, b]
    ensures [] + [a, b][0..] == [a, b] && [] + [a] == [a] == [a][0..]
  {
  }

  /** The loop has sent everything from `i` on. */
  function AllSent(id: int, t: Topic, log: seq<Content>, e: Entry, sent: seq<Content>, i: nat, resets: map<int, Topic>,
                   h: History, since: seq<nat>): Point
    requires i <= |log|
  {
    InScene(id, t, log, e, sent + log[i..], Inside(id, t, Testing(t, |log|)), resets,
            h.(current := h.current + Range(i, |log|)), since + Range(i, |log|))
  }

  lemma AllSentAtEnd(id: int, t: Topic, log: seq<Content>, e: Entry, sent: seq<Content>, resets: map<int, Topic>,
                     h: History, since: seq<nat>)
    ensures AllSent(id, t, log, e, sent, |log|, resets, h, since) ==
            InScene(id, t, log, e, sent, Inside(id, t, Testing(t, |log|)), resets, h, since)
  {
    assert sent + log[|log|..] == sent && h.current + [] == h.current && since + [] == since;
  }

  lemma AllSentOneMore(id: int, t: Topic, log: seq<Content>, e: Entry, sent: seq<Content>, i: nat,
                       resets: map<int, Topic>, h: History, since: seq<nat>)
    requires i < |log|
    ensures AllSent(id, t, log, e, sent + [log[i]], i + 1, resets, h.(current := h.current + [i]), since + [i]) ==
            AllSent(id, t, log, e, sent, i, resets, h, since)
  {
    assert sent + [log[i]] + log[i + 1..] == sent + log[i..];
    MoreOfRange(h.current, i, |log|);
    MoreOfRange(since, i, |log|);
  }

  lemma SendOne(id: int, t: Topic, log: seq<Content>, e: Entry, sent: seq<Content>, i: nat,
                resets: map<int, Topic>, h: History, since: seq<nat>)
    requires i < |log|
    requires Reachable(InScene(id, t, log, e, sent, Inside(id, t, Testing(t, i)), resets, h, since), id, t)
    ensures Reachable(InScene(id, t, log, e, sent + [log[i]], Inside(id, t, Testing(t, i + 1)), resets,
                              h.(current := h.current + [i]), since + [i]), id, t)
  {
    var h', sent' := h.(current := h.current + [i]), sent + [log[i]];
    GoTest(id, t, log, e, sent, i, resets, h, since);
    GoSend(id, t, log, e, sent, i, resets, h, since);
    Step(InScene(id, t, log, e, sent, Inside(id, t, Testing(t, i)), resets, h, since), Advance,
         InScene(id, t, log, e, sent, Inside(id, t, Sending(t, i)), resets, h, since), id, t);
    Step(InScene(id, t, log, e, sent, Inside(id, t, Sending(t, i)), resets, h, since), Advance,
         InScene(id, t, log, e, sent', Inside(id, t, Testing(t, i + 1)), resets, h', since + [i]), id, t);
  }

  /** The send loop, from a test of `i` to the test that fails. */
  lemma {:induction false} SendRest(id: int, t: Topic, log: seq<Content>, e: Entry, sent: seq<Content>, i: nat,
                                    resets: map<int, Topic>, h: History, since: seq<nat>)
    requires i <= |log|
    requires Reachable(InScene(id, t, log, e, sent, Inside(id, t, Testing(t, i)), resets, h, since), id, t)
    ensures Reachable(AllSent(id, t, log, e, sent, i, resets, h, since), id, t)
    decreases |log| - i
  {
    if i == |log| {
      AllSentAtEnd(id, t, log, e, sent, resets, h, since);
    } else {
      SendOne(id, t, log, e, sent, i, resets, h, since);
      SendRest(id, t, log, e, sent + [log[i]], i + 1, resets, h.(current := h.current + [i]), since + [i]);
      AllSentOneMore(id, t, log, e, sent, i, resets, h, since);
    }
  }

  /** A wake-up as far as the first test. */
  lemma WakeStarts(id: int, t: Topic, log: seq<Content>, cursor: nat, sent: seq<Content>,
                   resets: map<int, Topic>, h: History, since: seq<nat>)
    requires cursor < |log|
    requires Reachable(InScene(id, t, log, Entry(true, cursor), sent, Idle, resets, h, since), id, t)
    ensures Reachable(InScene(id, t, log, Entry(true, cursor), sent, Inside(id, t, Testing(t, cursor)), resets,
                              h, since), id, t)
  {
    var e := Entry(true, cursor);
    GoBegin(id, t, log, e, sent, resets, h, since);
    GoChoose(id, t, log, e, sent, resets, h, since);
    GoRead(id, t, log, e, sent, resets, h, since);
    Step(InScene(id, t, log, e, sent, Idle, resets, h, since), Begin(id),
         InScene(id, t, log, e, sent, Inside(id, t, Choosing), resets, h, since), id, t);
    Step(InScene(id, t, log, e, sent, Inside(id, t, Choosing), resets, h, since), Choose(t),
         InScene(id, t, log, e, sent, Inside(id, t, Read(t, e)), resets, h, since), id, t);
    Step(InScene(id, t, log, e, sent, Inside(id, t, Read(t, e)), resets, h, since), Advance,
         InScene(id, t, log, e, sent, Inside(id, t, Testing(t, cursor)), resets, h, since), id, t);
  }

  /** A wake-up up to and with the test that fails. */
  lemma WakeSendsAll(id: int, t: Topic, log: seq<Content>, cursor: nat, sent: seq<Content>,
                     resets: map<int, Topic>, h: History, since: seq<nat>)
    requires cursor < |log|
    requires Reachable(InScene(id, t, log, Entry(true, cursor), sent, Idle, resets, h, since), id, t)
    ensures Reachable(InScene(id, t, log, Entry(true, cursor), sent + log[cursor..], Inside(id, t, Sizing(t)), resets,
                              h.(current := h.current + Range(cursor, |log|)), since + Range(cursor, |log|)), id, t)
  {
    var e, sent' := Entry(true, cursor), sent + log[cursor..];
    var h', since' := h.(current := h.current + Range(cursor, |log|)), since + Range(cursor, |log|);
    WakeStarts(id, t, log, cursor, sent, resets, h, since);
    SendRest(id, t, log, e, sent, cursor, resets, h, since);
    LastTest(id, t, log, e, sent', resets, h', since');
  }

  lemma LastTest(id: int, t: Topic, log: seq<Content>, e: Entry, sent: seq<Content>,
                 resets: map<int, Topic>, h: History, since: seq<nat>)
    requires Reachable(InScene(id, t, log, e, sent, Inside(id, t, Testing(t, |log|)), resets, h, since), id, t)
    ensures Reachable(InScene(id, t, log, e, sent, Inside(id, t, Sizing(t)), resets, h, since), id, t)
  {
    GoTest(id, t, log, e, sent, |log|, resets, h, since);
    Step(InScene(id, t, log, e, sent, Inside(id, t, Testing(t, |log|)), resets, h, since), Advance,
         InScene(id, t, log, e, sent, Inside(id, t, Sizing(t)), resets, h, since), id, t);
  }

  /** From the second reading of the size to the end of the wake-up. */
  lemma WakeStores(id: int, t: Topic, log: seq<Content>, e: Entry, sent: seq<Content>,
                   resets: map<int, Topic>, h: History, since: seq<nat>)
    requires Reachable(InScene(id, t, log, e, sent, Inside(id, t, Sizing(t)), resets, h, since), id, t)
    ensures Reachable(InScene(id, t, log, e.(cursor := |log|), sent, Idle, resets, h, since), id, t)
  {
    var e' := e.(cursor := |log|);
    GoSize(id, t, log, e, sent, resets, h, since);
    GoWrite(id, t, log, e, sent, |log|, resets, h, since);
    GoFinish(id, t, log, e', sent, resets, h, since);
    Step(InScene(id, t, log, e, sent, Inside(id, t, Sizing(t)), resets, h, since), Advance,
         InScene(id, t, log, e, sent, Inside(id, t, Writing(t, |log|)), resets, h, since), id, t);
    Step(InScene(id, t, log, e, sent, Inside(id, t, Writing(t, |log|)), resets, h, since), Advance,
         InScene(id, t, log, e', sent, Body(id, {t}, [t], Choosing), resets, h, since), id, t);
    Step(InScene(id, t, log, e', sent, Body(id, {t}, [t], Choosing), resets, h, since), Finish,
         InScene(id, t, log, e', sent, Idle, resets, h, since), id, t);
  }

  /** One message published, and one subscriber to it. */
  lemma Setting(id: int, t: Topic, c: Content)
    ensures Reachable(InScene(id, t, [c], Entry(true, 0), [], Idle, map[], NOTHING, []), id, t)
  {
    var none: seq<nat> := [];
    assert none + none == none && [] + [c] == [c];
    var start, p := Point(START, NOTHING, []), Point(Next(START, Append(t, c)), NOTHING, []);
    assert p.m.base == State(map[t := [c]], map[], map[]);
    StartReachable(id, t);
    Step(start, Append(t, c), p, id, t);
    Step(p, Request(id, t), InScene(id, t, [c], Entry(true, 0), [], Idle, map[], NOTHING, []), id, t);
  }

  const SENT_FIRST := History([], [0], 0)

  /** The sender has sent that message and has just found the log exhausted. */
  lemma AboutToStore(id: int, t: Topic, c: Content)
    ensures Reachable(InScene(id, t, [c], Entry(true, 0), [c], Inside(id, t, Sizing(t)), map[], SENT_FIRST, [0]), id, t)
  {
    SmallRanges();
    TwoContents(c, c);
    Setting(id, t, c);
    WakeSendsAll(id, t, [c], 0, [], map[], NOTHING, []);
  }

  // ---------------------------------------------------------------- the races

  lemma AppendThere(id: int, t: Topic, c: Content, late: Content)
    ensures Reachable(InScene(id, t, [c, late], Entry(true, 2), [c], Idle, map[], History([], [0], 1), [0]), id, t)
  {
    var pc, e := Inside(id, t, Sizing(t)), Entry(true, 0);
    TwoContents(c, late);
    AboutToStore(id, t, c);
    GoAppend(id, t, [c], e, [c], pc, map[], SENT_FIRST, [0], late);
    Step(InScene(id, t, [c], e, [c], pc, map[], SENT_FIRST, [0]), Append(t, late),
         InScene(id, t, [c, late], e, [c], pc, map[], History([], [0], 1), [0]), id, t);
    WakeStores(id, t, [c, late], e, [c], map[], History([], [0], 1), [0]);
  }

  /** After `actions` entry `k` of the log will not be sent in this epoch. */
  ghost predicate NeverSent(actions: seq<Action>, id: int, t: Topic, k: nat) {
    forall more | IsMicroRun(actions + more) && SameEpoch(actions, more, id, t) ::
      k !in HistoryOf(actions + more, id, t).current
  }

  lemma BelowCursorNeverSent(actions: seq<Action>, id: int, t: Topic, k: nat)
    requires IsMicroRun(actions) && After(actions).pc.Idle?
    requires k < EntryOf(After(actions).base, id, t).cursor && k !in HistoryOf(actions, id, t).current
    ensures NeverSent(actions, id, t, k)
  {
    forall more | IsMicroRun(actions + more) && SameEpoch(actions, more, id, t)
      ensures k !in HistoryOf(actions + more, id, t).current
    {
      SkippedForGood(actions, more, id, t, k);
    }
  }

  /** An append between the last test and the second reading of the size is
      stepped over: the subscriber has the first message only, the cursor stands
      after the second, and nothing that happens later in the epoch sends it. */
  lemma AppendRaceLosesMessage(id: int, t: Topic, c: Content, late: Content)
    ensures exists run ::
              && IsMicroRun(run)
              && After(run) == Micro(Scene(id, t, [c, late], Entry(true, 2), [c]), Idle, map[])
              && NeverSent(run, id, t, 1)
  {
    AppendThere(id, t, c, late);
    SceneReads(id, t, [c, late], Entry(true, 2), [c]);
    var p := InScene(id, t, [c, late], Entry(true, 2), [c], Idle, map[], History([], [0], 1), [0]);
    var run :| IsMicroRun(run) && PointOf(run, id, t) == p;
    BelowCursorNeverSent(run, id, t, 1);
  }

  /** Unsubscribing and subscribing again, up to the last write. */
  lemma Resubscribe(id: int, t: Topic, log: seq<Content>, cursor: nat, sent: seq<Content>, pc: Pc, h: History,
                    since: seq<nat>)
    requires Reachable(InScene(id, t, log, Entry(true, cursor), sent, pc, map[], h, since), id, t)
    ensures Reachable(InScene(id, t, log, Entry(true, cursor), sent, pc, map[id := t], h, []), id, t)
  {
    GoRequest(id, t, log, Entry(true, cursor), sent, pc, h, since);
    GoRequest(id, t, log, Entry(false, cursor), sent, pc, h, since);
    Step(InScene(id, t, log, Entry(true, cursor), sent, pc, map[], h, since), Request(id, t),
         InScene(id, t, log, Entry(false, cursor), sent, pc, map[], h, since), id, t);
    Step(InScene(id, t, log, Entry(false, cursor), sent, pc, map[], h, since), Request(id, t),
         InScene(id, t, log, Entry(true, cursor), sent, pc, map[id := t], h, []), id, t);
  }

  lemma ResetThere(id: int, t: Topic, c: Content)
    ensures Reachable(InScene(id, t, [c], Entry(true, 1), [c], Idle, map[], History([0], [], 1), []), id, t)
  {
    var pc, e := Inside(id, t, Sizing(t)), Entry(true, 0);
    AboutToStore(id, t, c);
    Resubscribe(id, t, [c], 0, [c], pc, SENT_FIRST, [0]);
    GoReset(id, t, [c], e, [c], pc, SENT_FIRST, []);
    SceneReads(id, t, [c], e, [c]);
    assert [] + [0] == [0];
    Step(InScene(id, t, [c], e, [c], pc, map[id := t], SENT_FIRST, []), Reset(id),
         InScene(id, t, [c], e, [c], pc, map[], History([0], [], 1), []), id, t);
    WakeStores(id, t, [c], e, [c], map[], History([0], [], 1), []);
  }

  /** Subscribing again there loses the replay: since the flag went on nothing
      was sent, yet the cursor stands after the first message, and nothing that
      happens later in the epoch sends it. */
  lemma ResubscribeRaceLosesReplay(id: int, t: Topic, c: Content)
    ensures exists run ::
              && IsMicroRun(run)
              && After(run) == Micro(Scene(id, t, [c], Entry(true, 1), [c]), Idle, map[])
              && SinceOn(run, id, t) == []
              && NeverSent(run, id, t, 0)
  {
    ResetThere(id, t, c);
    SceneReads(id, t, [c], Entry(true, 1), [c]);
    var p := InScene(id, t, [c], Entry(true, 1), [c], Idle, map[], History([0], [], 1), []);
    var run :| IsMicroRun(run) && PointOf(run, id, t) == p;
    BelowCursorNeverSent(run, id, t, 0);
  }

  /** A subscriber with `a` behind it and `b` published since has just subscribed
      again, but its cursor is yet to be set back. */
  lemma HalfwayBack(id: int, t: Topic, a: Content, b: Content)
    ensures Reachable(InScene(id, t, [a, b], Entry(true, 1), [a], Idle, map[id := t], SENT_FIRST, []), id, t)
  {
    var e := Entry(true, 1);
    TwoContents(a, b);
    AboutToStore(id, t, a);
    WakeStores(id, t, [a], Entry(true, 0), [a], map[], SENT_FIRST, [0]);
    GoAppend(id, t, [a], e, [a], Idle, map[], SENT_FIRST, [0], b);
    Step(InScene(id, t, [a], e, [a], Idle, map[], SENT_FIRST, [0]), Append(t, b),
         InScene(id, t, [a, b], e, [a], Idle, map[], SENT_FIRST, [0]), id, t);
    Resubscribe(id, t, [a, b], 1, [a], Idle, SENT_FIRST, [0]);
  }

  /** A wake-up there, and then the second write. */
  lemma WokenHalfwayBack(id: int, t: Topic, a: Content, b: Content)
    ensures Reachable(InScene(id, t, [a, b], Entry(true, 0), [a, b], Idle, map[], History([0, 1], [], 0), [1]), id, t)
  {
    var log, h := [a, b], History([], [0, 1], 0);
    SmallRanges();
    TwoContents(a, b);
    HalfwayBack(id, t, a, b);
    WakeSendsAll(id, t, log, 1, [a], map[id := t], SENT_FIRST, []);
    WakeStores(id, t, log, Entry(true, 1), log, map[id := t], h, [1]);
    GoReset(id, t, log, Entry(true, 2), log, Idle, h, [1]);
    assert [] + [0, 1] == [0, 1];
    Step(InScene(id, t, log, Entry(true, 2), log, Idle, map[id := t], h, [1]), Reset(id),
         InScene(id, t, log, Entry(true, 0), log, Idle, map[], History([0, 1], [], 0), [1]), id, t);
  }

  lemma WokenAgain(id: int, t: Topic, a: Content, b: Content)
    ensures Reachable(InScene(id, t, [a, b], Entry(true, 2), [a, b] + [a, b], Idle, map[], History([0, 1], [0, 1], 0),
                              [1, 0, 1]), id, t)
  {
    var log, h := [a, b], History([0, 1], [0, 1], 0);
    SmallRanges();
    TwoContents(a, b);
    WokenHalfwayBack(id, t, a, b);
    WakeSendsAll(id, t, log, 0, log, map[], History([0, 1], [], 0), [1]);
    WakeStores(id, t, log, Entry(true, 0), log + log, map[], h, [1, 0, 1]);
  }

  /** A wake-up between the two writes of a re-subscription and one after them:
      from the flag going on the subscriber has been sent `b`, then `a`, then `b`
      again, though no race has hit the epoch. */
  lemma WakeBetweenWritesRepeats(id: int, t: Topic, a: Content, b: Content)
    ensures exists run ::
              && IsMicroRun(run)
              && After(run) == Micro(Scene(id, t, [a, b], Entry(true, 2), [a] + [b, a, b]), Idle, map[])
              && SinceOn(run, id, t) == [1, 0, 1]
              && RaceFree(run, id, t)
  {
    WokenAgain(id, t, a, b);
    assert [a, b] + [a, b] == [a] + [b, a, b];
    var p := InScene(id, t, [a, b], Entry(true, 2), [a] + [b, a, b], Idle, map[], History([0, 1], [0, 1], 0),
                     [1, 0, 1]);
    var run :| IsMicroRun(run) && PointOf(run, id, t) == p;
    SkippedIffRace(run, id, t);
  }

  /** The sender goes on for `n` steps undisturbed. */
  function AdvanceTimes(m: Micro, n: nat): Micro {
    if n == 0 then m else Next(AdvanceTimes(m, n - 1), Advance)
  }

  /** A user unsubscribes while the sender has sent it nothing yet. */
  lemma GoneMeanwhile(id: int, t: Topic, c: Content)
    ensures Reachable(InScene(id, t, [c], Entry(false, 0), [], Inside(id, t, Testing(t, 0)), map[], NOTHING, []), id, t)
  {
    var pc := Inside(id, t, Testing(t, 0));
    Setting(id, t, c);
    WakeStarts(id, t, [c], 0, [], map[], NOTHING, []);
    GoRequest(id, t, [c], Entry(true, 0), [], pc, NOTHING, []);
    Step(InScene(id, t, [c], Entry(true, 0), [], pc, map[], NOTHING, []), Request(id, t),
         InScene(id, t, [c], Entry(false, 0), [], pc, map[], NOTHING, []), id, t);
  }

  lemma TwoSends(id: int, t: Topic, a: Content, b: Content, e: Entry)
    ensures AdvanceTimes(Micro(Scene(id, t, [a, b], e, []), Inside(id, t, Testing(t, 0)), map[]), 4) ==
            Micro(Scene(id, t, [a, b], e, [a, b]), Inside(id, t, Testing(t, 2)), map[])
  {
    var log := [a, b];
    TwoContents(a, b);
    GoTest(id, t, log, e, [], 0, map[], NOTHING, []);
    GoSend(id, t, log, e, [], 0, map[], NOTHING, []);
    GoTest(id, t, log, e, [a], 1, map[], NOTHING, []);
    GoSend(id, t, log, e, [a], 1, map[], NOTHING, []);
    var m := Micro(Scene(id, t, log, e, []), Inside(id, t, Testing(t, 0)), map[]);
    assert AdvanceTimes(m, 2) == Micro(Scene(id, t, log, e, [a]), Inside(id, t, Testing(t, 1)), map[]) by {
      assert AdvanceTimes(m, 1) == Next(m, Advance);
    }
    assert AdvanceTimes(m, 3) == Next(AdvanceTimes(m, 2), Advance);
  }

  /** Whatever is published after that is still sent to it. */
  lemma SentAfterUnsubscribing(id: int, t: Topic, c: Content, late: Content)
    ensures exists run ::
              && IsMicroRun(run)
              && !EntryOf(After(run).base, id, t).on
              && Outbox(After(run).base, id) == []
              && Outbox(AdvanceTimes(Next(After(run), Append(t, late)), 4).base, id) == Packets(t, [c, late])
  {
    var off, pc := Entry(false, 0), Inside(id, t, Testing(t, 0));
    GoneMeanwhile(id, t, c);
    SceneReads(id, t, [c], off, []);
    AppendInScene(id, t, [c], off, [], late);
    TwoContents(c, late);
    TwoSends(id, t, c, late, off);
    var run :| IsMicroRun(run) && PointOf(run, id, t) == InScene(id, t, [c], off, [], pc, map[], NOTHING, []);
    assert Next(After(run), Append(t, late)) == Micro(Scene(id, t, [c, late], off, []), pc, map[]);
  }
}
