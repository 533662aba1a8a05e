/** What a subscriber receives from the moment its flag goes on. Subscribing
    again is two writes, the flag and then the cursor; a wake-up in between
    sends on from the old cursor, and the replay comes after that. */
module BrokerReplays {
  import opened BrokerModel
  import opened BrokerMicro

  /** The flag of `id` on `t` goes on. */
  predicate TurnsOn(m: Micro, a: Action, id: int, t: Topic) {
    a == Request(id, t) && !EntryOf(m.base, id, t).on
  }

  /** What step `a` does to the list of indices sent since then... */
  function More(m: Micro, a: Action, id: int, t: Topic, since: seq<nat>): seq<nat> {
    if TurnsOn(m, a, id, t) then [] else since + if Sends(m, a, id, t) then [m.pc.at.i] else []
  }

  /** ... and to those of them sent while the cursor was yet to be set back. */
  function MoreEarly(m: Micro, a: Action, id: int, t: Topic, early: seq<nat>): seq<nat> {
    if TurnsOn(m, a, id, t) then []
    else early + if Sends(m, a, id, t) && Pending(m, id, t) then [m.pc.at.i] else []
  }

  /** Log indices sent to `id` on `t` since the flag last went on. */
  function SinceOn(actions: seq<Action>, id: int, t: Topic): seq<nat> {
    if actions == [] then []
    else
      var before := actions[..|actions| - 1];
      More(After(before), actions[|actions| - 1], id, t, SinceOn(before, id, t))
  }

  /** Those of them sent before the second write, which sets the cursor back. */
  function Early(actions: seq<Action>, id: int, t: Topic): seq<nat> {
    if actions == [] then []
    else
      var before := actions[..|actions| - 1];
      MoreEarly(After(before), actions[|actions| - 1], id, t, Early(before, id, t))
  }

  /** What is sent next either lies above all that was sent early, or is the
      first entry of the log. */
  ghost predicate NextIsAboveOrFirst(v: View, at: At, early: seq<nat>) {
    || Below(early, Bound(v, at))
    || (Bound(v, at) == 0 && (at.Read? ==> at.copy.cursor == 0 || Below(early, at.copy.cursor)))
  }

  ghost predicate ReplayInv(pending: bool, v: View, at: At, current: seq<nat>, since: seq<nat>, early: seq<nat>) {
    && Increasing(early) && Below(early, |v.log|)
    && if pending then since == early && Below(early, Bound(v, at))
       else
         && since == early + current
         && if current == [] then NextIsAboveOrFirst(v, at, early) else current[0] == 0 || Below(early, current[0])
  }

  ghost predicate ReplayInvAt(m: Micro, h: History, since: seq<nat>, early: seq<nat>, id: int, t: Topic) {
    && InvAt(m, h, id, t)
    && ReplayInv(Pending(m, id, t), ViewOf(m.base, id, t), Standing(m.pc, id, t), h.current, since, early)
  }

  lemma AppendKeepsReplay(m: Micro, u: Topic, c: Content, h: History, since: seq<nat>, early: seq<nat>,
                          id: int, t: Topic)
    requires ReplayInvAt(m, h, since, early, id, t)
    ensures var m', h' := Next(m, Append(u, c)), Record(m, Append(u, c), id, t, h);
            ReplayInv(Pending(m', id, t), ViewOf(m'.base, id, t), Standing(m'.pc, id, t), h'.current, since, early)
  {
    ViewAfterAppend(m.base, u, c, id, t);
  }

  lemma FlagDoesNotMatter(pending: bool, v: View, v': View, at: At, current: seq<nat>, since: seq<nat>, early: seq<nat>)
    requires ReplayInv(pending, v, at, current, since, early)
    requires v'.log == v.log && v'.entry.cursor == v.entry.cursor
    ensures ReplayInv(pending, v', at, current, since, early)
  {
  }

  lemma NothingSentYet(pending: bool, v: View, at: At, current: seq<nat>)
    requires !pending ==> current == []
    ensures ReplayInv(pending, v, at, current, [], [])
  {
  }

  /** A request that turns the flag on either starts an epoch or leaves a reset
      pending; any other changes neither. */
  lemma RequestKinds(m: Micro, i: int, u: Topic, h: History, id: int, t: Topic)
    requires Can(m, Request(i, u))
    ensures var a := Request(i, u);
            var pending', current' := Pending(Next(m, a), id, t), Record(m, a, id, t, h).current;
            if TurnsOn(m, a, id, t) then pending' || current' == []
            else pending' == Pending(m, id, t) && current' == h.current
  {
  }

  lemma RequestKeepsReplay(m: Micro, i: int, u: Topic, h: History, since: seq<nat>, early: seq<nat>, id: int, t: Topic)
    requires ReplayInvAt(m, h, since, early, id, t) && Can(m, Request(i, u))
    ensures var a := Request(i, u);
            var m', h' := Next(m, a), Record(m, a, id, t, h);
            var on := TurnsOn(m, a, id, t);
            ReplayInv(Pending(m', id, t), ViewOf(m'.base, id, t), Standing(m'.pc, id, t), h'.current,
                      if on then [] else since, if on then [] else early)
  {
    var a, v, at := Request(i, u), ViewOf(m.base, id, t), Standing(m.pc, id, t);
    var m' := Next(m, a);
    RequestView(m, i, u, id, t);
    RequestKinds(m, i, u, h, id, t);
    if TurnsOn(m, a, id, t) {
      NothingSentYet(Pending(m', id, t), ViewOf(m'.base, id, t), at, Record(m, a, id, t, h).current);
    } else {
      FlagDoesNotMatter(Pending(m, id, t), v, ViewOf(m'.base, id, t), at, h.current, since, early);
    }
  }

  lemma ResetKeepsReplay(m: Micro, i: int, h: History, since: seq<nat>, early: seq<nat>, id: int, t: Topic)
    requires ReplayInvAt(m, h, since, early, id, t) && Can(m, Reset(i))
    ensures var m', h' := Next(m, Reset(i)), Record(m, Reset(i), id, t, h);
            ReplayInv(Pending(m', id, t), ViewOf(m'.base, id, t), Standing(m'.pc, id, t), h'.current, since, early)
  {
    var u := m.resets[i];
    ViewAfterSetEntry(m.base, i, u, EntryOf(m.base, i, u).(cursor := 0), id, t);
    assert early + [] == early;
  }

  lemma IncreasingOneMore(s: seq<nat>, i: nat)
    requires Increasing(s) && Below(s, i)
    ensures Increasing(s + [i]) && Below(s + [i], i + 1)
  {
  }

  lemma OneMoreReplayed(pending: bool, v: View, v': View, t: Topic, i: nat,
                        current: seq<nat>, since: seq<nat>, early: seq<nat>)
    requires ReplayInv(pending, v, Sending(t, i), current, since, early)
    requires v'.log == v.log && i < |v.log|
    ensures ReplayInv(pending, v', Testing(t, i + 1), current + [i], since + [i],
                      if pending then early + [i] else early)
  {
    if pending {
      IncreasingOneMore(early, i);
    } else {
      assert early + current + [i] == early + (current + [i]);
      assert (current + [i])[0] == if current == [] then i else current[0];
    }
  }

  lemma SendKeepsReplay(m: Micro, h: History, since: seq<nat>, early: seq<nat>, id: int, t: Topic)
    requires ReplayInvAt(m, h, since, early, id, t) && Standing(m.pc, id, t).Sending?
    ensures var m', i, pending := Next(m, Advance), m.pc.at.i, Pending(m, id, t);
            ReplayInv(pending, ViewOf(m'.base, id, t), Standing(m'.pc, id, t), h.current + [i],
                      since + [i], if pending then early + [i] else early)
  {
    var i, v, v' := m.pc.at.i, ViewOf(m.base, id, t), ViewOf(Next(m, Advance).base, id, t);
    SendView(m, id, t);
    OneMoreReplayed(Pending(m, id, t), v, v', t, i, h.current, since, early);
  }

  /** One step of the sender at (`id`, `t`) that sends nothing. */
  lemma SilentStep(pending: bool, v: View, at: At, v': View, at': At,
                   current: seq<nat>, since: seq<nat>, early: seq<nat>)
    requires ReplayInv(pending, v, at, current, since, early) && v'.log == v.log
    requires Bound(v, at) <= |v.log| && Bound(v', at') >= Bound(v, at) && !at'.Read?
    requires at.Read? && Bound(v', at') != Bound(v, at) ==> Bound(v', at') == at.copy.cursor
    requires !at.Read? && Bound(v', at') != Bound(v, at) ==> Bound(v', at') == |v.log|
    ensures ReplayInv(pending, v', at', current, since, early)
  {
  }

  lemma AdvanceKeepsReplay(m: Micro, h: History, since: seq<nat>, early: seq<nat>, id: int, t: Topic)
    requires ReplayInvAt(m, h, since, early, id, t) && Can(m, Advance) && !Standing(m.pc, id, t).Sending?
    ensures var m' := Next(m, Advance);
            ReplayInv(Pending(m', id, t), ViewOf(m'.base, id, t), Standing(m'.pc, id, t), h.current, since, early)
  {
    var m' := Next(m, Advance);
    AdvanceView(m, id, t);
    SilentStep(Pending(m, id, t), ViewOf(m.base, id, t), Standing(m.pc, id, t), ViewOf(m'.base, id, t),
               Standing(m'.pc, id, t), h.current, since, early);
  }

  /** The invariant after step `a`. */
  ghost predicate Kept(m: Micro, a: Action, h: History, since: seq<nat>, early: seq<nat>, id: int, t: Topic) {
    var m' := Next(m, a);
    ReplayInv(Pending(m', id, t), ViewOf(m'.base, id, t), Standing(m'.pc, id, t), Record(m, a, id, t, h).current,
              More(m, a, id, t, since), MoreEarly(m, a, id, t, early))
  }

  lemma OthersKeepReplay(m: Micro, a: Action, h: History, since: seq<nat>, early: seq<nat>, id: int, t: Topic)
    requires ReplayInvAt(m, h, since, early, id, t) && Can(m, a) && (a.Append? || a.Request? || a.Reset?)
    ensures Kept(m, a, h, since, early, id, t)
  {
    assert since + [] == since && early + [] == early;
    match a
    case Append(u, c) => AppendKeepsReplay(m, u, c, h, since, early, id, t);
    case Request(i, u) => RequestKeepsReplay(m, i, u, h, since, early, id, t);
    case Reset(i) => ResetKeepsReplay(m, i, h, since, early, id, t);
  }

  lemma EntryCopied(pending: bool, v: View, t: Topic, current: seq<nat>, since: seq<nat>, early: seq<nat>)
    requires ReplayInv(pending, v, Choosing, current, since, early)
    ensures ReplayInv(pending, v, Read(t, v.entry), current, since, early)
  {
  }

  /** The loop's head moves the sender and nothing else. */
  lemma LoopMovesSender(m: Micro, a: Action, h: History, id: int, t: Topic)
    requires Can(m, a) && (a.Begin? || a.Choose? || a.Finish?)
    ensures var m', at, at' := Next(m, a), Standing(m.pc, id, t), Standing(Next(m, a).pc, id, t);
            && ViewOf(m'.base, id, t) == ViewOf(m.base, id, t) && Pending(m', id, t) == Pending(m, id, t)
            && Record(m, a, id, t, h).current == h.current
            && at == Choosing && (at' == Choosing || at' == Read(t, EntryOf(m.base, id, t)))
  {
    if a.Begin? {
      ViewAfterEnter(m.base, a.id, id, t);
    }
  }

  lemma LoopKeepsReplay(m: Micro, a: Action, h: History, since: seq<nat>, early: seq<nat>, id: int, t: Topic)
    requires ReplayInvAt(m, h, since, early, id, t) && Can(m, a) && (a.Begin? || a.Choose? || a.Finish?)
    ensures Kept(m, a, h, since, early, id, t)
  {
    assert since + [] == since && early + [] == early;
    LoopMovesSender(m, a, h, id, t);
    EntryCopied(Pending(m, id, t), ViewOf(m.base, id, t), t, h.current, since, early);
  }

  lemma SenderKeepsReplay(m: Micro, h: History, since: seq<nat>, early: seq<nat>, id: int, t: Topic)
    requires ReplayInvAt(m, h, since, early, id, t) && Can(m, Advance)
    ensures Kept(m, Advance, h, since, early, id, t)
  {
    assert since + [] == since && early + [] == early;
    if Standing(m.pc, id, t).Sending? {
      SendKeepsReplay(m, h, since, early, id, t);
    } else {
      AdvanceKeepsReplay(m, h, since, early, id, t);
    }
  }

  lemma StepKeepsReplay(m: Micro, a: Action, h: History, since: seq<nat>, early: seq<nat>, id: int, t: Topic)
    requires ReplayInvAt(m, h, since, early, id, t) && Can(m, a)
    ensures Kept(m, a, h, since, early, id, t)
  {
    if a.Append? || a.Request? || a.Reset? {
      OthersKeepReplay(m, a, h, since, early, id, t);
    } else if a.Advance? {
      SenderKeepsReplay(m, h, since, early, id, t);
    } else {
      LoopKeepsReplay(m, a, h, since, early, id, t);
    }
  }

  lemma {:induction false} ReplayInvariant(actions: seq<Action>, id: int, t: Topic)
    requires IsMicroRun(actions)
    ensures ReplayInvAt(After(actions), HistoryOf(actions, id, t), SinceOn(actions, id, t), Early(actions, id, t),
                        id, t)
  {
    if actions != [] {
      var before := actions[..|actions| - 1];
      var m, h, since, early := After(before), HistoryOf(before, id, t), SinceOn(before, id, t), Early(before, id, t);
      ReplayInvariant(before, id, t);
      MicroInvariant(actions, id, t);
      StepKeepsReplay(m, actions[|actions| - 1], h, since, early, id, t);
    }
  }

  // ------------------------------------------------------------ main results

  lemma JoinedIncreasing(a: seq<nat>, b: seq<nat>)
    requires Increasing(a) && Increasing(b)
    ensures Increasing(a + b) <==> a == [] || b == [] || a[|a| - 1] < b[0]
  {
    var s := a + b;
    if a != [] && b != [] {
      assert s[|a| - 1] == a[|a| - 1] && s[|a|] == b[0];
    }
  }

  /** From the flag going on, a subscriber gets repeats or a wrong order exactly
      when something was sent before the cursor was set back and the first
      entry of the log has been sent after it. */
  lemma RepeatsIffEarlyThenFirst(actions: seq<Action>, id: int, t: Topic)
    requires IsMicroRun(actions)
    ensures Increasing(SinceOn(actions, id, t)) <==>
            || Early(actions, id, t) == []
            || Pending(After(actions), id, t)
            || 0 !in HistoryOf(actions, id, t).current
  {
    ReplayInvariant(actions, id, t);
    var current, early := HistoryOf(actions, id, t).current, Early(actions, id, t);
    if !Pending(After(actions), id, t) {
      JoinedIncreasing(early, current);
      if current != [] && current[0] == 0 {
        assert 0 in current;
      }
    }
  }

  /** In an epoch that no race has hit, whatever was sent early is sent again as
      soon as the cursor has moved. */
  lemma RaceFreeEpochRepeatsEarly(actions: seq<Action>, id: int, t: Topic)
    requires IsMicroRun(actions) && After(actions).pc.Idle? && !Pending(After(actions), id, t)
    requires RaceFree(actions, id, t)
    ensures Increasing(SinceOn(actions, id, t)) <==>
            Early(actions, id, t) == [] || EntryOf(After(actions).base, id, t).cursor == 0
  {
    RepeatsIffEarlyThenFirst(actions, id, t);
    GapFreeIffRaceFree(actions, id, t);
    if EntryOf(After(actions).base, id, t).cursor > 0 {
      assert HistoryOf(actions, id, t).current[0] == 0;
    }
  }

  // ---------------------------------------------------- skipped means for good

  /** No step of `more`, done after `actions`, starts an epoch of `id` on `t`. */
  ghost predicate SameEpoch(actions: seq<Action>, more: seq<Action>, id: int, t: Topic) {
    forall n | 0 <= n < |more| :: !Activates(After(actions + more[..n]), more[n], id, t)
  }

  function BoundAfter(actions: seq<Action>, id: int, t: Topic): nat {
    Bound(ViewOf(After(actions).base, id, t), Standing(After(actions).pc, id, t))
  }

  lemma OneMoreAction(actions: seq<Action>, a: Action, id: int, t: Topic, k: nat)
    requires IsMicroRun(actions + [a]) && !Activates(After(actions), a, id, t)
    requires k < BoundAfter(actions, id, t) && k !in HistoryOf(actions, id, t).current
    ensures k < BoundAfter(actions + [a], id, t) && k !in HistoryOf(actions + [a], id, t).current
  {
    assert (actions + [a])[..|actions|] == actions;
    MicroInvariant(actions, id, t);
    MicroInvariant(actions + [a], id, t);
  }

  lemma InitIsRun(actions: seq<Action>, more: seq<Action>)
    requires IsMicroRun(actions + more) && more != []
    ensures actions + more == (actions + more[..|more| - 1]) + [more[|more| - 1]]
    ensures IsMicroRun(actions + more[..|more| - 1])
  {
    assert (actions + more)[..|actions + more| - 1] == actions + more[..|more| - 1];
  }

  lemma InitIsSameEpoch(actions: seq<Action>, more: seq<Action>, id: int, t: Topic)
    requires SameEpoch(actions, more, id, t) && more != []
    ensures SameEpoch(actions, more[..|more| - 1], id, t)
    ensures !Activates(After(actions + more[..|more| - 1]), more[|more| - 1], id, t)
  {
    var init := more[..|more| - 1];
    forall n | 0 <= n < |init|
      ensures !Activates(After(actions + init[..n]), init[n], id, t)
    {
      assert init[..n] == more[..n] && init[n] == more[n];
    }
  }

  lemma {:induction false} SkippedStaysSkipped(actions: seq<Action>, more: seq<Action>, id: int, t: Topic, k: nat)
    requires IsMicroRun(actions + more) && SameEpoch(actions, more, id, t)
    requires k < BoundAfter(actions, id, t) && k !in HistoryOf(actions, id, t).current
    ensures k < BoundAfter(actions + more, id, t) && k !in HistoryOf(actions + more, id, t).current
  {
    if more == [] {
      assert actions + more == actions;
    } else {
      var init := more[..|more| - 1];
      InitIsRun(actions, more);
      InitIsSameEpoch(actions, more, id, t);
      SkippedStaysSkipped(actions, init, id, t, k);
      OneMoreAction(actions + init, more[|more| - 1], id, t, k);
    }
  }

  /** A message below the cursor that an epoch has not been sent will not be sent
      in it, whatever happens later. */
  lemma SkippedForGood(actions: seq<Action>, more: seq<Action>, id: int, t: Topic, k: nat)
    requires IsMicroRun(actions + more) && SameEpoch(actions, more, id, t) && After(actions).pc.Idle?
    requires k < EntryOf(After(actions).base, id, t).cursor && k !in HistoryOf(actions, id, t).current
    ensures k !in HistoryOf(actions + more, id, t).current
  {
    SkippedStaysSkipped(actions, more, id, t, k);
  }
}
