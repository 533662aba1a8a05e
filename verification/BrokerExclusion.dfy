/** What the reduction gives subscribers: with exclusion the guarantees of
    undivided wake-ups hold under every interleaving. */
module BrokerExclusion {
  import opened BrokerModel
  import opened BrokerEpochs
  import opened BrokerMicro
  import opened BrokerReduction
  import opened BrokerReplays

  /** So with exclusion every subscriber gets each epoch's log exactly once and
      in order, up to its cursor. */
  lemma ExclusionGivesExactlyOnce(actions: seq<Action>, id: int, t: Topic)
    requires IsMicroRun(actions) && Exclusive(actions)
    requires After(actions).pc.Idle? && After(actions).resets == map[]
    ensures var s, events := After(actions).base, Serialize(actions);
            && EntryOf(s, id, t).cursor <= |Log(s, t)|
            && Mark(events, id, t) <= |Project(Outbox(s, id), t)|
            && Project(Outbox(s, id), t)[Mark(events, id, t)..] == Log(s, t)[..EntryOf(s, id, t).cursor]
  {
    ExclusionMakesWakesAtomic(actions);
    ExactlyOnceInOrder(Serialize(actions), id, t);
  }

  lemma {:induction false} ExclusionIsRaceFree(actions: seq<Action>, id: int, t: Topic)
    requires IsMicroRun(actions) && Exclusive(actions)
    ensures RaceFree(actions, id, t)
  {
    if actions != [] {
      var before := actions[..|actions| - 1];
      ExclusionIsRaceFree(before, id, t);
      ExclusiveTracks(before);
    }
  }

  /** Nor does a wake-up ever fall between the two writes of a re-subscription,
      so nothing is repeated from the flag going on. */
  lemma {:induction false} ExclusionRulesOutEarly(actions: seq<Action>, id: int, t: Topic)
    requires IsMicroRun(actions) && Exclusive(actions)
    ensures Early(actions, id, t) == []
  {
    if actions != [] {
      var before := actions[..|actions| - 1];
      ExclusionRulesOutEarly(before, id, t);
      ExclusiveTracks(before);
    }
  }

  lemma ExclusionNeverRepeats(actions: seq<Action>, id: int, t: Topic)
    requires IsMicroRun(actions) && Exclusive(actions)
    ensures Increasing(SinceOn(actions, id, t))
  {
    ExclusionRulesOutEarly(actions, id, t);
    RepeatsIffEarlyThenFirst(actions, id, t);
  }
}
