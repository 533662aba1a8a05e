/** Which sessions client and server get through together: exactly those that the
    server's own history of them allows. */
module FtpProgress {
  import opened Options
  import opened HostPort
  import opened FtpSession
  import opened FtpClientModel
  import opened FtpRuns
  import opened FtpSystem
  import opened FtpTransfer

  /** A line with a known command makes this request. */
  ghost predicate Enterable(req: Request) {
    exists line :: RequestOf(line) == req && CommandOf(line) != Unknown
  }

  /** Some run takes the user from prompt to prompt with these requests served, in
      this order and no others. */
  ghost predicate GetsThrough(inputs: seq<Input>) {
    exists actions ::
      IsRun(actions) && After(actions).client.pc == AtPrompt && ServedInputs(actions) == inputs
  }

  /** Whether a PASV was refused since a port was last accepted, after a request
      that ended in `d`. */
  predicate RefusedAfter(since: bool, d: Done) {
    !IsSelection(d) && ((d.command == Pasv && d.status != 227) || since)
  }

  predicate PasvRefusedSince(inputs: seq<Input>) {
    inputs != [] &&
    var before := inputs[..|inputs| - 1];
    RefusedAfter(PasvRefusedSince(before), DoneBy(Run(before), inputs[|inputs| - 1]))
  }

  /** A request after which the user is back at the prompt. */
  predicate Passes(s: Session, since: bool, command: Command, body: string, w: World) {
    && command != Quit
    && (command == Port ==> FinalStatus(s, command, body, w).status == 200)
    && (Granted(s, command, body, w) ==> !since && Routable(s.dataPort))
  }

  ghost predicate PassesAs(s: Session, since: bool, x: Input) {
    Enterable(x.req) && Passes(s, since, Interpret(x.req.command), x.req.body, x.world)
  }

  /** Every request of the history can be entered, and there is no QUIT in it, no
      refused PORT, and no transfer granted on port 0 or after a PASV refused since
      its mode was selected. */
  ghost predicate Passable(inputs: seq<Input>) {
    inputs != [] ==>
      var before := inputs[..|inputs| - 1];
      Passable(before) && PassesAs(Run(before), PasvRefusedSince(before), inputs[|inputs| - 1])
  }

  // ------------------------------------------------------------ runs that exist

  /** Some run leads to `s`, with `inputs` served and `since` as in its history. */
  ghost predicate Reached(s: System, inputs: seq<Input>, since: bool) {
    exists actions ::
      IsRun(actions) && After(actions) == s && ServedInputs(actions) == inputs && RefusedSince(actions) == since
  }

  lemma StartReached()
    ensures Reached(START, [], false)
  {
    assert IsRun([]) && After([]) == START && ServedInputs([]) == [] && !RefusedSince([]);
  }

  lemma Go(s: System, inputs: seq<Input>, since: bool, a: Action)
    requires Reached(s, inputs, since) && Can(s, a) && !a.Serve?
    ensures Reached(Next(s, a), inputs, !ReadsAcceptance(s, a) && (ReadsRefusal(s, a, Pasv) || since))
  {
    var actions :|
      IsRun(actions) && After(actions) == s && ServedInputs(actions) == inputs && RefusedSince(actions) == since;
    var all := actions + [a];
    assert all[..|all| - 1] == actions && all[|all| - 1] == a;
    assert IsRun(all) && After(all) == Next(s, a);
    assert ServedInputs(all) == inputs + [] == inputs;
  }

  lemma GoServe(s: System, inputs: seq<Input>, since: bool, w: World)
    requires Reached(s, inputs, since) && Can(s, Serve(w))
    ensures Reached(Next(s, Serve(w)), inputs + [Input(s.toServer[0], w)], since)
  {
    var actions :|
      IsRun(actions) && After(actions) == s && ServedInputs(actions) == inputs && RefusedSince(actions) == since;
    var all := actions + [Serve(w)];
    assert all[..|all| - 1] == actions && all[|all| - 1] == Serve(w);
    assert IsRun(all) && After(all) == Next(s, Serve(w));
  }

  lemma Holds(s: System, inputs: seq<Input>, since: bool) returns (port: Option<int>)
    requires Reached(s, inputs, since)
    ensures Lockstep(s) && ThreadsFit(s, port) && s.session == Run(inputs)
    ensures TableLasts(s) && ModeTaken(s) ==> (LatestRefused(s.client) <==> since)
  {
    var actions :|
      IsRun(actions) && After(actions) == s && ServedInputs(actions) == inputs && RefusedSince(actions) == since;
    port := ThreadsHold(actions);
    SessionIsRun(actions);
    if TableLasts(s) && ModeTaken(s) {
      LatestIffRefusedSince(actions);
    }
  }

  // ----------------------------------------------------------- one reply read

  /** The first reply to a request that found the server in `q` is on its way. */
  predicate Answering(s: System, q: Session, body: string, w: World) {
    s.client.pc == AwaitFirst && s.toClient == [Act(q, s.client.sentCommand, body, w).1[0]]
  }

  /** Whether a reply accepts or refuses a port shows in its request's final status. */
  lemma SinceFollows(s: System, q: Session, body: string, w: World, since: bool)
    requires Answering(s, q, body, w)
    ensures (!ReadsAcceptance(s, Receive) && (ReadsRefusal(s, Receive, Pasv) || since)) <==>
            RefusedAfter(since, FinalStatus(q, s.client.sentCommand, body, w))
  {
    ReplyShape(q, s.client.sentCommand, body, w);
  }

  lemma ClassOfFirst(q: Session, command: Command, body: string, w: World)
    ensures ExtractClass(Act(q, command, body, w).1[0].status) == 1 <==> Granted(q, command, body, w)
    ensures Granted(q, command, body, w) ==> IsData(command)
    ensures command == Port ==> FinalStatus(q, command, body, w).status == Act(q, command, body, w).1[0].status
  {
    ReplyShape(q, command, body, w);
  }

  /** A PORT that is answered gets the client on if and only if it is accepted. */
  lemma PortGoesOn(s: System, port: Option<int>)
    requires Lockstep(s) && ThreadsFit(s, port) && TableLasts(s) && s.client.pc == AwaitFirst && s.toClient != []
    requires s.client.sentCommand == Port
    ensures PortTaken(s, port).client.pc == if s.toClient[0].status == 200 then AtPrompt else Failed
  {
  }

  /** Where the client is after it has read the reply. */
  lemma ReadOutcome(s: System, q: Session, body: string, w: World)
    requires Lockstep(s) && ThreadsInv(s) && TableLasts(s) && Answering(s, q, body, w)
    ensures var command, c' := s.client.sentCommand, Next(s, Receive).client;
            && (c'.pc == InTransfer <==> Granted(q, command, body, w))
            && (c'.pc == AtPrompt <==>
                && !Granted(q, command, body, w) && command != Quit
                && (command == Port ==> FinalStatus(q, command, body, w).status == 200))
            && c'.sentCommand == command
            && (c'.pc == AtPrompt || c'.pc == InTransfer || !Live(c'))
  {
    ReplyMoves(s.client, s.toClient[0]);
    ClassOfFirst(q, s.client.sentCommand, body, w);
    if s.client.sentCommand == Port {
      ReceiveTakesPort(s);
      PortGoesOn(s, PortInFlight(s));
    }
  }

  // ------------------------------------------------- what passes gets through

  lemma LineIsSent(s: System, inputs: seq<Input>, since: bool, line: string)
    requires Reached(s, inputs, since) && s.client.pc == AtPrompt && CommandOf(line) != Unknown
    ensures var s' := Next(s, Prompt(line));
            && Reached(s', inputs, since) && s'.session == s.session && s'.server == Waiting
            && s'.client.pc == AwaitFirst && s'.client.sentCommand == CommandOf(line)
            && s'.toServer == [RequestOf(line)] && s'.toClient == []
  {
    var _ := Holds(s, inputs, since);
    Go(s, inputs, since, Prompt(line));
  }

  lemma RequestIsServed(s: System, inputs: seq<Input>, since: bool, req: Request, w: World)
    requires Reached(s, inputs, since) && s.toServer == [req] && s.client.pc == AwaitFirst
    ensures var s' := Next(s, Serve(w));
            && Reached(s', inputs + [Input(req, w)], since) && Answering(s', Run(inputs), req.body, w)
            && s'.client == s.client && s.client.sentCommand == Interpret(req.command)
  {
    var _ := Holds(s, inputs, since);
    GoServe(s, inputs, since, w);
    ServeSendsFirst(s, w);
  }

  lemma TransferEnds(s: System, inputs: seq<Input>, since: bool) returns (s': System)
    requires Reached(s, inputs, since) && s.client.pc == InTransfer && TableLasts(s)
    requires !since && Routable(s.session.dataPort)
    ensures Reached(s', inputs, since) && s'.client.pc == AtPrompt
  {
    var port := Holds(s, inputs, since);
    var k := s.client.started;
    OneWake(s, port, k);
    Go(s, inputs, since, Wake(k));
    s' := Next(s, Wake(k));
    Go(s', inputs, since, Finish);
    s' := Next(s', Finish);
    Go(s', inputs, since, ReceiveSecond);
    s' := Next(s', ReceiveSecond);
  }

  lemma TransferKeepsPort(q: Session, command: Command, body: string, w: World)
    requires Granted(q, command, body, w)
    ensures Act(q, command, body, w).0.dataPort == q.dataPort && Act(q, command, body, w).0.portIdx == q.portIdx
  {
  }

  lemma ReplyIsRead(s: System, inputs: seq<Input>, since: bool, x: Input) returns (s': System)
    requires Reached(s, inputs + [x], since) && Answering(s, Run(inputs), x.req.body, x.world) && TableLasts(s)
    requires s.client.sentCommand == Interpret(x.req.command) && PassesAs(Run(inputs), since, x)
    ensures Reached(s', inputs + [x], RefusedAfter(since, DoneBy(Run(inputs), x))) && s'.client.pc == AtPrompt
  {
    var q, command := Run(inputs), s.client.sentCommand;
    var since' := RefusedAfter(since, DoneBy(q, x));
    var _ := Holds(s, inputs + [x], since);
    HoldsRead(s, inputs + [x], since);
    ReadOutcome(s, q, x.req.body, x.world);
    SinceFollows(s, q, x.req.body, x.world, since);
    Go(s, inputs + [x], since, Receive);
    s' := Next(s, Receive);
    if Granted(q, command, x.req.body, x.world) {
      ClassOfFirst(q, command, x.req.body, x.world);
      TransferKeepsPort(q, command, x.req.body, x.world);
      assert (inputs + [x])[..|inputs|] == inputs;
      s' := TransferEnds(s', inputs + [x], since');
    }
  }

  lemma HoldsRead(s: System, inputs: seq<Input>, since: bool)
    requires Reached(s, inputs, since)
    ensures Lockstep(s) && ThreadsInv(s)
  {
    var actions :|
      IsRun(actions) && After(actions) == s && ServedInputs(actions) == inputs && RefusedSince(actions) == since;
    ThreadsAlwaysFit(actions);
  }

  lemma TurnPasses(s: System, inputs: seq<Input>, since: bool, x: Input) returns (s': System)
    requires Reached(s, inputs, since) && s.client.pc == AtPrompt && PassesAs(Run(inputs), since, x)
    requires Run(inputs + [x]).portIdx <= |PORTS|
    ensures Reached(s', inputs + [x], RefusedAfter(since, DoneBy(Run(inputs), x)))
    ensures s'.client.pc == AtPrompt
  {
    var line :| RequestOf(line) == x.req && CommandOf(line) != Unknown;
    LineIsSent(s, inputs, since, line);
    s' := Next(s, Prompt(line));
    RequestIsServed(s', inputs, since, x.req, x.world);
    s' := Next(s', Serve(x.world));
    var _ := Holds(s', inputs + [x], since);
    s' := ReplyIsRead(s', inputs, since, x);
  }

  lemma GreetingIsRead() returns (s: System)
    ensures Reached(s, [], false) && s.client.pc == AtPrompt
  {
    StartReached();
    Go(START, [], false, Receive);
    s := Next(START, Receive);
  }

  lemma TableLastsBefore(inputs: seq<Input>, x: Input)
    requires Run(inputs + [x]).portIdx <= |PORTS|
    ensures Run(inputs).portIdx <= |PORTS|
  {
    assert (inputs + [x])[..|inputs|] == inputs;
    TableKeeps(Run(inputs), Interpret(x.req.command), x.req.body, x.world);
  }

  lemma {:induction false} PassableIsReached(inputs: seq<Input>) returns (s: System)
    requires Passable(inputs) && Run(inputs).portIdx <= |PORTS|
    ensures Reached(s, inputs, PasvRefusedSince(inputs)) && s.client.pc == AtPrompt
  {
    if inputs == [] {
      s := GreetingIsRead();
    } else {
      var before, x := inputs[..|inputs| - 1], inputs[|inputs| - 1];
      assert before + [x] == inputs;
      TableLastsBefore(before, x);
      s := PassableIsReached(before);
      s := TurnPasses(s, before, PasvRefusedSince(before), x);
    }
  }

  // ------------------------------------------------- what gets through passes

  /** What the served requests of a run tell about a client that can still get to
      its prompt. */
  ghost predicate Story(s: System, inputs: seq<Input>, since: bool) {
    && (s.toServer != [] ==> Enterable(s.toServer[0]))
    && (inputs == [] ==> s.server == Waiting && (s.toClient != [] ==> s.client.sentCommand == User))
    && (Live(s.client) && TableLasts(s) ==>
          if inputs != [] && s.client.pc == AwaitFirst && s.toClient != [] then ReplyComing(s, inputs, since)
          else if s.client.pc == InTransfer then UnderWay(s, inputs, since)
          else Passable(inputs) && (since <==> PasvRefusedSince(inputs)))
  }

  /** The reply to the latest request is on its way. */
  ghost predicate ReplyComing(s: System, inputs: seq<Input>, since: bool)
    requires inputs != []
  {
    var before, x := inputs[..|inputs| - 1], inputs[|inputs| - 1];
    && Passable(before) && (since <==> PasvRefusedSince(before)) && Enterable(x.req)
    && s.client.sentCommand == Interpret(x.req.command)
    && Answering(s, Run(before), x.req.body, x.world)
  }

  /** The latest request was granted a transfer, which is under way. */
  ghost predicate UnderWay(s: System, inputs: seq<Input>, since: bool) {
    inputs != [] &&
    var before, x := inputs[..|inputs| - 1], inputs[|inputs| - 1];
    && Passable(before) && (since <==> PasvRefusedSince(before)) && (since <==> PasvRefusedSince(inputs))
    && Enterable(x.req) && IsData(Interpret(x.req.command))
    && s.session.dataPort == Run(before).dataPort
  }

  lemma ServeTells(s: System, inputs: seq<Input>, since: bool, w: World)
    requires Lockstep(s) && s.session == Run(inputs) && Story(s, inputs, since) && Can(s, Serve(w))
    ensures Story(Next(s, Serve(w)), inputs + [Input(s.toServer[0], w)], since)
  {
    var s', x := Next(s, Serve(w)), Input(s.toServer[0], w);
    ServeSendsFirst(s, w);
    assert (inputs + [x])[..|inputs|] == inputs;
    if Live(s'.client) && TableLasts(s') {
      TableKeeps(s.session, s.client.sentCommand, s.toServer[0].body, w);
      assert ReplyComing(s', inputs + [x], since);
    }
  }

  lemma GreetingTells(s: System, since: bool)
    requires Lockstep(s) && Story(s, [], since) && Can(s, Receive)
    ensures Story(Next(s, Receive), [], since)
  {
    ReplyMoves(s.client, s.toClient[0]);
  }

  /** A reply that grants a transfer has been read. */
  lemma GrantTells(s: System, inputs: seq<Input>, since: bool)
    requires inputs != [] && s.session == Run(inputs) && !s.session.stuck && ReplyComing(s, inputs, since)
    requires var before, x := inputs[..|inputs| - 1], inputs[|inputs| - 1];
             Granted(Run(before), s.client.sentCommand, x.req.body, x.world)
    ensures UnderWay(s, inputs, since)
  {
    var before, x := inputs[..|inputs| - 1], inputs[|inputs| - 1];
    ClassOfFirst(Run(before), s.client.sentCommand, x.req.body, x.world);
    TransferKeepsPort(Run(before), s.client.sentCommand, x.req.body, x.world);
  }

  /** A reply after which the client is at its prompt has been read. */
  lemma AnswerTells(s: System, inputs: seq<Input>, since: bool)
    requires inputs != [] && ReplyComing(s, inputs, since)
    requires var before, x := inputs[..|inputs| - 1], inputs[|inputs| - 1];
             && s.client.sentCommand != Quit
             && (s.client.sentCommand == Port ==> DoneBy(Run(before), x).status == 200)
             && !Granted(Run(before), s.client.sentCommand, x.req.body, x.world)
    ensures Passable(inputs)
  {
  }

  lemma ReceiveTells(s: System, inputs: seq<Input>, since: bool)
    requires Lockstep(s) && ThreadsInv(s) && s.session == Run(inputs) && !s.session.stuck
    requires inputs != [] && Story(s, inputs, since) && Can(s, Receive)
    ensures Story(Next(s, Receive), inputs, !ReadsAcceptance(s, Receive) && (ReadsRefusal(s, Receive, Pasv) || since))
  {
    var before, x := inputs[..|inputs| - 1], inputs[|inputs| - 1];
    if Live(s.client) && TableLasts(s) {
      SinceFollows(s, Run(before), x.req.body, x.world, since);
      ReadOutcome(s, Run(before), x.req.body, x.world);
      if Granted(Run(before), s.client.sentCommand, x.req.body, x.world) {
        GrantTells(s, inputs, since);
      } else if Next(s, Receive).client.pc == AtPrompt {
        AnswerTells(s, inputs, since);
      }
    }
  }

  lemma WakeTells(s: System, inputs: seq<Input>, since: bool, k: nat, port: Option<int>)
    requires Lockstep(s) && ThreadsFit(s, port) && Story(s, inputs, since) && Can(s, Wake(k))
    requires TableLasts(s) ==> (LatestRefused(s.client) <==> since)
    ensures Story(Next(s, Wake(k)), inputs, since)
  {
    if TableLasts(s) {
      OneWake(s, port, k);
    }
  }

  lemma PromptTells(s: System, inputs: seq<Input>, since: bool, line: string)
    requires Lockstep(s) && Story(s, inputs, since) && Can(s, Prompt(line))
    ensures Story(Next(s, Prompt(line)), inputs, since)
  {
  }

  lemma RestTells(s: System, inputs: seq<Input>, since: bool, a: Action)
    requires Lockstep(s) && Story(s, inputs, since) && Can(s, a) && (a.Finish? || a.ReceiveSecond?)
    ensures Story(Next(s, a), inputs, since)
  {
  }

  lemma {:induction false} AlwaysTells(actions: seq<Action>)
    requires IsRun(actions)
    ensures Story(After(actions), ServedInputs(actions), RefusedSince(actions))
  {
    if actions != [] {
      var before, a := actions[..|actions| - 1], actions[|actions| - 1];
      var s, inputs, since := After(before), ServedInputs(before), RefusedSince(before);
      AlwaysTells(before);
      ThreadsAlwaysFit(before);
      SessionIsRun(before);
      assert inputs + [] == inputs;
      match a
      case Serve(w) => ServeTells(s, inputs, since, w);
      case Receive => if inputs == [] { GreetingTells(s, since); } else { ReceiveTells(s, inputs, since); }
      case Wake(k) => AlwaysWakeTells(before, k);
      case Prompt(line) => PromptTells(s, inputs, since, line);
      case _ => RestTells(s, inputs, since, a);
    }
  }

  lemma AlwaysWakeTells(actions: seq<Action>, k: nat)
    requires IsRun(actions) && Can(After(actions), Wake(k))
    requires Story(After(actions), ServedInputs(actions), RefusedSince(actions))
    ensures Story(Next(After(actions), Wake(k)), ServedInputs(actions), RefusedSince(actions))
  {
    var port := ThreadsHold(actions);
    if TableLasts(After(actions)) {
      LatestIffRefusedSince(actions);
    }
    WakeTells(After(actions), ServedInputs(actions), RefusedSince(actions), k, port);
  }

  /** Client and server get from prompt to prompt through a history, as long as the
      table of passive ports lasts, if and only if every request of it can be
      entered, and by the server's answers there is no QUIT in it, no refused PORT,
      and no transfer granted on port 0 or after a PASV refused since its mode was
      selected. */
  lemma GetsThroughIffPassable(inputs: seq<Input>)
    requires Run(inputs).portIdx <= |PORTS|
    ensures GetsThrough(inputs) <==> Passable(inputs)
  {
    if Passable(inputs) {
      var s := PassableIsReached(inputs);
    }
    if GetsThrough(inputs) {
      var actions :| IsRun(actions) && After(actions).client.pc == AtPrompt && ServedInputs(actions) == inputs;
      AlwaysTells(actions);
      SessionIsRun(actions);
    }
  }
}
