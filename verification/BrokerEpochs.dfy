/** What subscribers receive over a whole run of publishes, toggles and
    undisturbed wake-ups. The reference below never mentions a cursor: in each
    subscription epoch a subscriber is owed the whole log as it stood at the
    last wake-up of that epoch. */
module BrokerEpochs {
  import opened BrokerModel

  /** What a run owes user `id` on topic `t`: the messages published, the number
      of requests to toggle, and one list of contents per activation. */
  datatype Account = Account(log: seq<Content>, toggles: nat, epochs: seq<seq<Content>>)

  function Owe(a: Account, e: Event, id: int, t: Topic): Account {
    match e
    case Publish(u, c) => if u == t then a.(log := a.log + [c]) else a
    case Toggle(i, u) =>
      if i != id || u != t then a
      else a.(toggles := a.toggles + 1, epochs := if a.toggles % 2 == 0 then a.epochs + [[]] else a.epochs)
    case Wake(i, _) =>
      if i == id && a.toggles % 2 == 1 && a.epochs != [] then a.(epochs := a.epochs[..|a.epochs| - 1] + [a.log]) else a
  }

  function AccountOf(events: seq<Event>, id: int, t: Topic): Account {
    if events == [] then Account([], 0, [])
    else Owe(AccountOf(events[..|events| - 1], id, t), events[|events| - 1], id, t)
  }

  function Flatten<T>(parts: seq<seq<T>>): seq<T> {
    if parts == [] then [] else Flatten(parts[..|parts| - 1]) + parts[|parts| - 1]
  }

  function Stream(events: seq<Event>, id: int, t: Topic): seq<Content> {
    Project(Outbox(Run(events), id), t)
  }

  /** Length of the stream when `id` last activated `t`. */
  function Mark(events: seq<Event>, id: int, t: Topic): nat {
    if events == [] then 0
    else
      var before := events[..|events| - 1];
      if events[|events| - 1] == Toggle(id, t) && !EntryOf(Run(before), id, t).on then |Stream(before, id, t)|
      else Mark(before, id, t)
  }

  // ------------------------------------------------------- effect of a wake

  /** What one undisturbed visit does to the visited user and topic. */
  function Served(v: View): View {
    if v.entry.on && v.entry.cursor < |v.log|
    then v.(entry := Entry(true, |v.log|), stream := v.stream + v.log[v.entry.cursor..])
    else v
  }

  lemma VisitEffect(s: State, i: int, u: Topic, id: int, t: Topic)
    ensures ViewOf(Visit(s, i, u), id, t) == if id == i && t == u then Served(ViewOf(s, id, t)) else ViewOf(s, id, t)
  {
    var e, log := EntryOf(s, i, u), Log(s, u);
    ViewAfterTouch(s, u, id, t);
    if e.on && e.cursor < |log| {
      var sent := Emit(Touch(s, u), i, Packets(u, log[e.cursor..]));
      ViewAfterEmit(Touch(s, u), i, u, log[e.cursor..], id, t);
      ViewAfterSetEntry(sent, i, u, Entry(true, |log|), id, t);
      assert Visit(s, i, u) == SetEntry(sent, i, u, Entry(true, |log|));
      if id == i && t == u {
        assert ViewOf(s, id, t).entry == e && ViewOf(s, id, t).known;
      }
    }
  }

  lemma {:induction false} VisitsEffect(s: State, i: int, order: seq<Topic>, id: int, t: Topic)
    requires forall a, b | 0 <= a < b < |order| :: order[a] != order[b]
    ensures ViewOf(Visits(s, i, order), id, t) ==
            if id == i && t in order then Served(ViewOf(s, id, t)) else ViewOf(s, id, t)
  {
    if order != [] {
      var before, last := order[..|order| - 1], order[|order| - 1];
      VisitsEffect(s, i, before, id, t);
      VisitEffect(Visits(s, i, before), i, last, id, t);
      assert last !in before;
      assert order == before + [last];
    }
  }

  // --------------------------------------------------------- the refinement

  /** The broker's view agrees with the reference. */
  ghost predicate Agrees(v: View, a: Account) {
    && v.log == a.log
    && (v.known <==> a.toggles > 0)
    && |a.epochs| == (a.toggles + 1) / 2
    && v.entry == (if a.toggles > 0 then Entry(a.toggles % 2 == 1, |a.epochs[|a.epochs| - 1]|) else Entry(false, 0))
    && (forall i | 0 <= i < |a.epochs| :: a.epochs[i] <= a.log)
    && v.stream == Flatten(a.epochs)
  }

  lemma FlattenOneMore<T>(parts: seq<seq<T>>, p: seq<T>)
    ensures Flatten(parts + [p]) == Flatten(parts) + p
  {
    assert (parts + [p])[..|parts|] == parts;
  }

  lemma PublishAgrees(v: View, a: Account, c: Content)
    requires Agrees(v, a)
    ensures Agrees(v.(log := v.log + [c]), a.(log := a.log + [c]))
  {
    assert forall i | 0 <= i < |a.epochs| :: a.epochs[i] <= a.log <= a.log + [c];
  }

  lemma ToggleAgrees(v: View, a: Account, id: int, t: Topic)
    requires Agrees(v, a)
    ensures Agrees(Flipped(v), Owe(a, Toggle(id, t), id, t))
  {
    FlattenOneMore(a.epochs, []);
    assert Flatten(a.epochs) + [] == Flatten(a.epochs);
  }

  lemma WakeAgrees(v: View, a: Account, id: int, t: Topic)
    requires Agrees(v, a)
    ensures Agrees(Served(v), Owe(a, Wake(id, []), id, t))
  {
    if a.toggles % 2 == 1 {
      var earlier, last := a.epochs[..|a.epochs| - 1], a.epochs[|a.epochs| - 1];
      FlattenOneMore(earlier, last);
      FlattenOneMore(earlier, a.log);
      assert earlier + [last] == a.epochs;
      assert last + a.log[|last|..] == a.log;
      assert Flatten(earlier) + last + a.log[|last|..] == Flatten(earlier) + a.log;
      assert |last| == |a.log| ==> last == a.log;
    }
  }

  lemma StepAgrees(s: State, a: Account, e: Event, id: int, t: Topic)
    requires Agrees(ViewOf(s, id, t), a) && Enabled(s, e)
    ensures Agrees(ViewOf(Step(s, e), id, t), Owe(a, e, id, t))
  {
    var v := ViewOf(s, id, t);
    match e
    case Publish(u, c) =>
      ViewAfterAppend(s, u, c, id, t);
      PublishAgrees(v, a, c);
    case Toggle(i, u) =>
      ViewAfterFlip(s, i, u, id, t);
      ToggleAgrees(v, a, id, t);
    case Wake(i, order) =>
      ViewAfterEnter(s, i, id, t);
      VisitsEffect(Enter(s, i), i, order, id, t);
      WakeAgrees(v, a, id, t);
  }

  /** Incremental delivery by cursors sends exactly what the reference owes. */
  lemma {:induction false} CursorsRefineEpochs(events: seq<Event>, id: int, t: Topic)
    requires IsRun(events)
    ensures Agrees(ViewOf(Run(events), id, t), AccountOf(events, id, t))
  {
    if events != [] {
      var before := events[..|events| - 1];
      CursorsRefineEpochs(before, id, t);
      StepAgrees(Run(before), AccountOf(before, id, t), events[|events| - 1], id, t);
    }
  }

  /** All epochs but the last. */
  function Earlier(a: Account): seq<seq<Content>> {
    if a.epochs == [] then [] else a.epochs[..|a.epochs| - 1]
  }

  lemma EarlierAfter(a: Account, e: Event, id: int, t: Topic)
    requires |a.epochs| == (a.toggles + 1) / 2
    ensures Earlier(Owe(a, e, id, t)) == if e == Toggle(id, t) && a.toggles % 2 == 0 then a.epochs else Earlier(a)
  {
  }

  lemma {:induction false} MarkIsEarlierEpochs(events: seq<Event>, id: int, t: Topic)
    requires IsRun(events)
    ensures Mark(events, id, t) == |Flatten(Earlier(AccountOf(events, id, t)))|
  {
    if events != [] {
      var before := events[..|events| - 1];
      MarkIsEarlierEpochs(before, id, t);
      CursorsRefineEpochs(before, id, t);
      EarlierAfter(AccountOf(before, id, t), events[|events| - 1], id, t);
    }
  }

  // ------------------------------------------------------------ main results

  lemma LastEpoch(v: View, a: Account)
    requires Agrees(v, a)
    ensures v.entry.cursor <= |v.log|
    ensures v.stream == Flatten(Earlier(a)) + v.log[..v.entry.cursor]
  {
    if a.epochs != [] {
      FlattenOneMore(Earlier(a), a.epochs[|a.epochs| - 1]);
      assert Earlier(a) + [a.epochs[|a.epochs| - 1]] == a.epochs;
    }
  }

  /** In every reachable state, what was sent since the latest activation is
      the log up to the cursor: in order, without gap or duplicate. */
  lemma ExactlyOnceInOrder(events: seq<Event>, id: int, t: Topic)
    requires IsRun(events)
    ensures EntryOf(Run(events), id, t).cursor <= |Log(Run(events), t)|
    ensures Mark(events, id, t) <= |Stream(events, id, t)|
    ensures Stream(events, id, t)[Mark(events, id, t)..] == Log(Run(events), t)[..EntryOf(Run(events), id, t).cursor]
  {
    CursorsRefineEpochs(events, id, t);
    MarkIsEarlierEpochs(events, id, t);
    LastEpoch(ViewOf(Run(events), id, t), AccountOf(events, id, t));
  }

  function Published(events: seq<Event>, t: Topic): seq<Content> {
    if events == [] then []
    else
      var e := events[|events| - 1];
      Published(events[..|events| - 1], t) + if e.Publish? && e.topic == t then [e.content] else []
  }

  function Toggles(events: seq<Event>, id: int, t: Topic): nat {
    if events == [] then 0
    else Toggles(events[..|events| - 1], id, t) + if events[|events| - 1] == Toggle(id, t) then 1 else 0
  }

  lemma {:induction false} AccountCounts(events: seq<Event>, id: int, t: Topic)
    ensures AccountOf(events, id, t).log == Published(events, t)
    ensures AccountOf(events, id, t).toggles == Toggles(events, id, t)
  {
    if events != [] {
      AccountCounts(events[..|events| - 1], id, t);
      assert Published(events[..|events| - 1], t) + [] == Published(events[..|events| - 1], t);
    }
  }

  /** The stream is one prefix of the published messages per epoch. */
  ghost predicate IsPrefixPerEpoch(stream: seq<Content>, log: seq<Content>, epochs: seq<seq<Content>>) {
    stream == Flatten(epochs) && forall i | 0 <= i < |epochs| :: epochs[i] <= log
  }

  /** The whole stream is one prefix of the log per epoch, the epochs number
      half the toggles rounded up, and the flag is on after an odd toggle. */
  lemma StreamIsPrefixPerEpoch(events: seq<Event>, id: int, t: Topic)
    requires IsRun(events)
    ensures exists epochs ::
              |epochs| == (Toggles(events, id, t) + 1) / 2
              && IsPrefixPerEpoch(Stream(events, id, t), Published(events, t), epochs)
    ensures EntryOf(Run(events), id, t).on <==> Toggles(events, id, t) % 2 == 1
    ensures Log(Run(events), t) == Published(events, t)
  {
    CursorsRefineEpochs(events, id, t);
    AccountCounts(events, id, t);
    assert IsPrefixPerEpoch(Stream(events, id, t), Published(events, t), AccountOf(events, id, t).epochs);
  }

  /** The publishes and toggles of a run, without its wake-ups. */
  function WithoutWakes(events: seq<Event>): seq<Event> {
    if events == [] then []
    else
      var e := events[|events| - 1];
      WithoutWakes(events[..|events| - 1]) + if e.Wake? then [] else [e]
  }

  lemma {:induction false} WakesCarryNoInput(events: seq<Event>, id: int, t: Topic)
    ensures AccountOf(events, id, t).log == AccountOf(WithoutWakes(events), id, t).log
    ensures AccountOf(events, id, t).toggles == AccountOf(WithoutWakes(events), id, t).toggles
  {
    if events != [] {
      var before, e := events[..|events| - 1], events[|events| - 1];
      var kept := WithoutWakes(before);
      WakesCarryNoInput(before, id, t);
      if e.Wake? {
        assert WithoutWakes(events) == kept + [] == kept;
      } else {
        assert WithoutWakes(events)[..|kept|] == kept;
      }
    }
  }

  /** If subscribed: the cursor is at the end of the log, and the deliveries
      since the latest activation are the full log. */
  ghost predicate CaughtUp(events: seq<Event>, id: int, t: Topic) {
    var s := Run(events);
    EntryOf(s, id, t).on ==>
      && EntryOf(s, id, t).cursor == |Log(s, t)|
      && Mark(events, id, t) <= |Stream(events, id, t)|
      && Stream(events, id, t)[Mark(events, id, t)..] == Log(s, t)
  }

  lemma WakeCatchesUp(events: seq<Event>, id: int, order: seq<Topic>, t: Topic)
    requires IsRun(events + [Wake(id, order)])
    ensures CaughtUp(events + [Wake(id, order)], id, t)
  {
    var all := events + [Wake(id, order)];
    assert all[..|events|] == events;
    CursorsRefineEpochs(all, id, t);
    ExactlyOnceInOrder(all, id, t);
    assert Log(Run(all), t)[..|Log(Run(all), t)|] == Log(Run(all), t);
  }

  lemma SameInputSameFlags(a: seq<Event>, b: seq<Event>, id: int, t: Topic)
    requires IsRun(a) && IsRun(b) && WithoutWakes(a) == WithoutWakes(b)
    ensures Log(Run(a), t) == Log(Run(b), t)
    ensures EntryOf(Run(a), id, t).on == EntryOf(Run(b), id, t).on
  {
    CursorsRefineEpochs(a, id, t);
    CursorsRefineEpochs(b, id, t);
    WakesCarryNoInput(a, id, t);
    WakesCarryNoInput(b, id, t);
  }

  /** Missed or delayed wake-ups only delay: two runs with the same publishes
      and toggles, both ending in a wake-up of `id`, leave every topic of `id`
      with the same flag, and every subscribed one with the same cursor and the
      same deliveries since its latest activation, namely the full log. */
  lemma MissedWakeupsOnlyDelay(a: seq<Event>, orderA: seq<Topic>, b: seq<Event>, orderB: seq<Topic>, id: int, t: Topic)
    requires IsRun(a + [Wake(id, orderA)]) && IsRun(b + [Wake(id, orderB)])
    requires WithoutWakes(a) == WithoutWakes(b)
    ensures var allA, allB := a + [Wake(id, orderA)], b + [Wake(id, orderB)];
            && Log(Run(allA), t) == Log(Run(allB), t)
            && EntryOf(Run(allA), id, t).on == EntryOf(Run(allB), id, t).on
            && CaughtUp(allA, id, t)
            && CaughtUp(allB, id, t)
  {
    var allA, allB := a + [Wake(id, orderA)], b + [Wake(id, orderB)];
    assert allA[..|a|] == a && allB[..|b|] == b;
    assert WithoutWakes(allA) == WithoutWakes(a) + [] && WithoutWakes(allB) == WithoutWakes(b) + [];
    SameInputSameFlags(allA, allB, id, t);
    WakeCatchesUp(a, id, orderA, t);
    WakeCatchesUp(b, id, orderB, t);
  }
}
