/** What a refused PASV does to the transfer after it: two runs of client and
    server from their start, up to the point where either of two data threads may
    be woken. A refusal after the mode was selected leaves no good wake-up, one
    before it leaves a good one and a bad one. */
module FtpRefusal {
  import opened Options
  import opened Text
  import opened HostPort
  import opened FtpSession
  import opened FtpClientModel
  import opened FtpAbandoned
  import opened FtpSystem

  /** Some run leads to `s`. */
  ghost predicate Reachable(s: System) {
    exists actions :: IsRun(actions) && After(actions) == s
  }

  predicate Goes(s: System, a: Action, s': System) {
    Can(s, a) && s' == Next(s, a)
  }

  lemma Step(s: System, a: Action, s': System)
    requires Reachable(s) && Goes(s, a, s')
    ensures Reachable(s')
  {
    var actions :| IsRun(actions) && After(actions) == s;
    var all := actions + [a];
    assert all[..|all| - 1] == actions && all[|all| - 1] == a;
    assert IsRun(all) && After(all) == s';
  }

  // ----------------------------------------------------------- one command

  function Line(word: string, arg: string): string {
    word + " " + arg
  }

  lemma LineParses(word: string, arg: string)
    requires word != "" && Clean(word, WHITESPACE) && Clean(arg, WHITESPACE)
    ensures CommandOf(Line(word, arg)) == Interpret(word) && RequestOf(Line(word, arg)).body == arg
  {
    assert Line(word, arg) == word + (" " + arg);
    FirstTokenIs(word, " " + arg, WHITESPACE);
    if arg != "" {
      FirstTokenIs(arg, "", WHITESPACE);
      assert arg + "" == arg;
    }
  }

  /** Nothing in flight, the server waiting. */
  function Quiet(session: Session, client: Client): System {
    System(session, Waiting, client, [], [])
  }

  /** A request in flight, and its first reply. */
  function Asked(session: Session, client: Client, line: string): System {
    Quiet(session, OnLine(client, line)).(toServer := [RequestOf(line)])
  }

  lemma PromptGoes(session: Session, client: Client, line: string)
    requires client.pc == AtPrompt && CommandOf(line) != Unknown
    ensures Goes(Quiet(session, client), Prompt(line), Asked(session, client, line))
  {
    assert [] + [RequestOf(line)] == [RequestOf(line)];
  }

  lemma ServeGoes(session: Session, client: Client, line: string, w: World)
    requires !session.stuck
    ensures var (session', replies) := Act(session, CommandOf(line), RequestOf(line).body, w);
            var data := DataSent(session', w);
            Goes(Asked(session, client, line), Serve(w),
                 System(session', if ExtractClass(replies[0].status) != 1 then Waiting
                        else Transferring(if |replies| == 2 then Some(replies[1]) else None, data),
                        OnLine(client, line), [], [replies[0]]))
  {
    ServerReadsSameCommand(line);
    var replies := Act(session, CommandOf(line), RequestOf(line).body, w).1;
    assert [] + replies[..1] == [replies[0]] && [RequestOf(line)][1..] == [];
  }

  lemma ReceiveGoes(s: System, reply: Reply)
    requires s.client.pc == AwaitFirst && s.toClient == [reply]
    ensures Goes(s, Receive, s.(toClient := [], client := OnReply(s.client, reply)))
  {
    assert [reply][1..] == [];
  }

  /** A command with one reply, from prompt to prompt. */
  lemma OneCommand(session: Session, client: Client, line: string, w: World,
                   session': Session, reply: Reply, client': Client)
    requires Reachable(Quiet(session, client)) && client.pc == AtPrompt && CommandOf(line) != Unknown
    requires !session.stuck && ExtractClass(reply.status) != 1
    requires Act(session, CommandOf(line), RequestOf(line).body, w) == (session', [reply])
    requires OnReply(OnLine(client, line), reply) == client'
    ensures Reachable(Quiet(session', client'))
  {
    var s := System(session', Waiting, OnLine(client, line), [], [reply]);
    PromptGoes(session, client, line);
    ServeGoes(session, client, line, w);
    ReceiveGoes(s, reply);
    Step(Quiet(session, client), Prompt(line), Asked(session, client, line));
    Step(Asked(session, client, line), Serve(w), s);
    Step(s, Receive, Quiet(session', client'));
  }

  // ------------------------------------------------------ the single commands

  /** A client at its prompt. */
  function Ready(sent: Command, waiting: map<nat, DataThread>, started: nat, port: int): Client {
    Client(AtPrompt, sent, waiting, started, port, "", Some(""))
  }

  /** A server that may have started one data thread, for the first passive port. */
  function Serving(auth: Auth): Session {
    if auth == ModeSelected
    then NEW_SESSION.(auth := ModeSelected, portIdx := 1, dataPort := TableEntry(0, WORLD), waiting := [1],
                      started := 1)
    else NEW_SESSION.(auth := auth)
  }

  lemma Greeted()
    ensures Reachable(Quiet(Serving(NotLoggedIn), Ready(User, map[], 0, 0)))
  {
    assert IsRun([]) && After([]) == START;
    ReceiveGoes(START, Reply(220, ServerReady));
    Step(START, Receive, Quiet(NEW_SESSION, Ready(User, map[], 0, 0)));
  }

  lemma UserLine()
    ensures CommandOf(Line("user", USER_ID)) == User && RequestOf(Line("user", USER_ID)).body == USER_ID
  {
    UserWord();
    LineParses("user", USER_ID);
  }

  lemma PassLine()
    ensures CommandOf(Line("pass", USER_PASSWORD)) == Pass
    ensures RequestOf(Line("pass", USER_PASSWORD)).body == USER_PASSWORD
  {
    PassWord();
    LineParses("pass", USER_PASSWORD);
  }

  lemma PasvLine()
    ensures CommandOf(Line("pasv", "")) == Pasv
  {
    PasvWord();
    LineParses("pasv", "");
  }

  lemma NlstLine()
    ensures CommandOf(Line("nlst", "")) == Nlst
  {
    NlstWord();
    LineParses("nlst", "");
  }

  /** A reply to USER or PASS changes nothing but the place. */
  lemma PlainReply(client: Client, line: string, reply: Reply)
    requires CommandOf(line) == User || CommandOf(line) == Pass
    ensures OnReply(OnLine(client, line), reply) == client.(pc := AtPrompt, sentCommand := CommandOf(line))
  {
  }

  lemma GivesName(sent: Command, waiting: map<nat, DataThread>, started: nat, port: int)
    requires Reachable(Quiet(Serving(NotLoggedIn), Ready(sent, waiting, started, port)))
    ensures Reachable(Quiet(Serving(NeedPassword), Ready(User, waiting, started, port)))
  {
    var line, reply := Line("user", USER_ID), Reply(331, PasswordRequired);
    UserLine();
    PlainReply(Ready(sent, waiting, started, port), line, reply);
    OneCommand(Serving(NotLoggedIn), Ready(sent, waiting, started, port), line, WORLD, Serving(NeedPassword), reply,
               Ready(User, waiting, started, port));
  }

  lemma GivesPassword(sent: Command, waiting: map<nat, DataThread>, started: nat, port: int)
    requires Reachable(Quiet(Serving(NeedPassword), Ready(sent, waiting, started, port)))
    ensures Reachable(Quiet(Serving(LoggedIn), Ready(Pass, waiting, started, port)))
  {
    var line, reply := Line("pass", USER_PASSWORD), Reply(230, LoggedOn);
    PassLine();
    PlainReply(Ready(sent, waiting, started, port), line, reply);
    OneCommand(Serving(NeedPassword), Ready(sent, waiting, started, port), line, WORLD, Serving(LoggedIn), reply,
               Ready(Pass, waiting, started, port));
  }

  lemma PasvReads(c: Client, reply: Reply)
    requires c.sentCommand == Pasv
    ensures OnReply(c, reply) == StartThread(c, PortRead(Pasv, reply.notice), reply.status == 227)
  {
  }

  /** What PASV leaves of the client: one more thread and its port. */
  function Started(waiting: map<nat, DataThread>, started: nat, port: int, accepted: bool): Client {
    Ready(Pasv, waiting[started + 1 := DataThread(accepted)], started + 1, port)
  }

  lemma ThreadStarted(c: Client, line: string, port: int, accepted: bool)
    requires CommandOf(line) == Pasv && c == Ready(c.sentCommand, c.waiting, c.started, c.port)
    ensures StartThread(OnLine(c, line), Some(port), accepted) == Started(c.waiting, c.started, port, accepted)
  {
  }

  lemma PasvReply(c: Client, line: string, reply: Reply, port: int)
    requires CommandOf(line) == Pasv && PortRead(Pasv, reply.notice) == Some(port)
    requires c == Ready(c.sentCommand, c.waiting, c.started, c.port)
    ensures OnReply(OnLine(c, line), reply) == Started(c.waiting, c.started, port, reply.status == 227)
  {
    PasvReads(OnLine(c, line), reply);
    ThreadStarted(c, line, port, reply.status == 227);
  }

  /** PASV, with whatever the server answers. */
  lemma AsksForPort(session: Session, c: Client, line: string, session': Session, reply: Reply, port: int)
    requires Reachable(Quiet(session, c)) && c == Ready(c.sentCommand, c.waiting, c.started, c.port)
    requires CommandOf(line) == Pasv && !session.stuck && ExtractClass(reply.status) != 1
    requires Act(session, Pasv, RequestOf(line).body, WORLD) == (session', [reply])
    requires PortRead(Pasv, reply.notice) == Some(port)
    ensures Reachable(Quiet(session', Started(c.waiting, c.started, port, reply.status == 227)))
  {
    PasvReply(c, line, reply, port);
    OneCommand(session, c, line, WORLD, session', reply, Started(c.waiting, c.started, port, reply.status == 227));
  }

  lemma FirstEntry()
    ensures TableEntry(0, WORLD) == 1025
  {
  }

  lemma FirstPort()
    ensures TableEntry(0, WORLD) == 1025 && PortRead(Pasv, EnteringPassive(TableEntry(0, WORLD))) == Some(1025)
  {
    PassivePortsAgree(0);
  }

  lemma PasvAccepted(body: string)
    ensures Act(Serving(LoggedIn), Pasv, body, WORLD) ==
            (Serving(ModeSelected), [Reply(227, EnteringPassive(TableEntry(0, WORLD)))])
  {
    assert NEW_SESSION.waiting + [1] == [1];
  }

  lemma PasvRefused(auth: Auth, body: string)
    requires auth != LoggedIn
    ensures Act(Serving(auth), Pasv, body, WORLD) == (Serving(auth), [Reply(401, NotAuthorized)])
  {
  }

  lemma SelectsMode(c: Client, line: string)
    requires Reachable(Quiet(Serving(LoggedIn), c)) && c == Ready(c.sentCommand, c.waiting, c.started, c.port)
    requires CommandOf(line) == Pasv
    ensures Reachable(Quiet(Serving(ModeSelected), Started(c.waiting, c.started, 1025, true)))
  {
    FirstPort();
    PasvAccepted(RequestOf(line).body);
    AsksForPort(Serving(LoggedIn), c, line, Serving(ModeSelected), Reply(227, EnteringPassive(TableEntry(0, WORLD))),
                1025);
  }

  lemma IsRefused(auth: Auth, c: Client, line: string)
    requires Reachable(Quiet(Serving(auth), c)) && c == Ready(c.sentCommand, c.waiting, c.started, c.port)
    requires CommandOf(line) == Pasv && auth != LoggedIn
    ensures Reachable(Quiet(Serving(auth), Started(c.waiting, c.started, 0, false)))
  {
    PasvRefused(auth, RequestOf(line).body);
    UselessNotices(Pasv, NotAuthorized);
    AsksForPort(Serving(auth), c, line, Serving(auth), Reply(401, NotAuthorized), 0);
  }

  /** A listing is under way, and both sides' threads are waiting or woken. */
  function UnderWay(waiting: map<nat, DataThread>, started: nat, port: int): System {
    System(Serving(ModeSelected).(auth := LoggedIn, dataCommand := Nlst, waiting := []),
           Transferring(Some(Reply(226, Transferred("./"))), Some("")),
           Ready(Nlst, waiting, started, port).(pc := InTransfer), [], [])
  }

  lemma NlstGranted(body: string)
    ensures Act(Serving(ModeSelected), Nlst, body, WORLD) ==
            (UnderWay(map[], 0, 0).session, [Reply(150, NoText), Reply(226, Transferred("./"))])
    ensures DataSent(UnderWay(map[], 0, 0).session, WORLD) == Some("")
  {
    assert AfterSignal([1], 0) == [];
  }

  lemma ListingBegins(line: string, waiting: map<nat, DataThread>, started: nat, port: int)
    requires CommandOf(line) == Nlst
    requires Reachable(Quiet(Serving(ModeSelected), Ready(Pasv, waiting, started, port)))
    ensures Reachable(UnderWay(waiting, started, port))
  {
    var session, client := Serving(ModeSelected), Ready(Pasv, waiting, started, port);
    var s := UnderWay(waiting, started, port).(client := OnLine(client, line), toClient := [Reply(150, NoText)]);
    NlstGranted(RequestOf(line).body);
    PromptGoes(session, client, line);
    ServeGoes(session, client, line, WORLD);
    ReceiveGoes(s, Reply(150, NoText));
    Step(Quiet(session, client), Prompt(line), Asked(session, client, line));
    Step(Asked(session, client, line), Serve(WORLD), s);
    Step(s, Receive, UnderWay(waiting, started, port));
  }

  // -------------------------------------------------------------- the two runs

  const ACCEPTED_FIRST := map[1 := DataThread(true), 2 := DataThread(false)]
  const REFUSED_FIRST := map[1 := DataThread(false), 2 := DataThread(true)]

  lemma AcceptedThenRefused()
    ensures Reachable(UnderWay(ACCEPTED_FIRST, 2, 0))
  {
    Greeted();
    GivesName(User, map[], 0, 0);
    GivesPassword(User, map[], 0, 0);
    PasvLine();
    NlstLine();
    SelectsMode(Ready(Pass, map[], 0, 0), Line("pasv", ""));
    IsRefused(ModeSelected, Ready(Pasv, map[1 := DataThread(true)], 1, 1025), Line("pasv", ""));
    assert map[1 := DataThread(true)][2 := DataThread(false)] == ACCEPTED_FIRST;
    ListingBegins(Line("nlst", ""), ACCEPTED_FIRST, 2, 0);
  }

  lemma RefusedThenAccepted()
    ensures Reachable(UnderWay(REFUSED_FIRST, 2, 1025))
  {
    Greeted();
    PasvLine();
    NlstLine();
    IsRefused(NotLoggedIn, Ready(User, map[], 0, 0), Line("pasv", ""));
    GivesName(Pasv, map[1 := DataThread(false)], 1, 0);
    GivesPassword(User, map[1 := DataThread(false)], 1, 0);
    SelectsMode(Ready(Pass, map[1 := DataThread(false)], 1, 0), Line("pasv", ""));
    assert map[1 := DataThread(false)][2 := DataThread(true)] == REFUSED_FIRST;
    ListingBegins(Line("nlst", ""), REFUSED_FIRST, 2, 1025);
  }

  /** No step is possible any more. */
  ghost predicate Stuck(s: System) {
    forall a :: !Can(s, a)
  }

  lemma NoWakeConnects(s: System, k: nat)
    requires s.client.port == 0 && s.client.pc == InTransfer && s.server.Transferring? && s.toServer == []
    ensures var s' := Next(s, Wake(k)); s'.client.pc == Failed && s'.server.Transferring? && Stuck(s')
  {
  }

  /** User name, password, an accepted PASV, a refused one and NLST: the refused
      thread has put port 0 into the shared address, so whichever thread is woken
      cannot connect and ends the client, with the server's data thread accepting
      for ever. */
  lemma LaterRefusalEndsClient()
    ensures exists s ::
              && Reachable(s) && s.client.pc == InTransfer && s.client.waiting.Keys == {1, 2}
              && forall k | k in s.client.waiting ::
                   var s' := Next(s, Wake(k));
                   s'.client.pc == Failed && s'.server.Transferring? && Stuck(s')
  {
    var s := UnderWay(ACCEPTED_FIRST, 2, 0);
    AcceptedThenRefused();
    assert s.client.waiting.Keys == {1, 2};
    forall k | k in s.client.waiting
      ensures var s' := Next(s, Wake(k)); s'.client.pc == Failed && s'.server.Transferring? && Stuck(s')
    {
      NoWakeConnects(s, k);
    }
  }

  /** Thread `k` gets the data across and the server back to waiting, and nothing
      is possible after that. */
  ghost predicate Hangs(s: System, k: nat) {
    var done := Next(Next(s, Wake(k)), Finish);
    done.client.pc == Joining && done.server == Waiting && |done.toClient| == 1 && Stuck(done)
  }

  lemma OnlyLatestCompletes(s: System, k: nat)
    requires s.client.port == s.session.dataPort && Routable(s.client.port) && s.client.pc == InTransfer
    requires s.server.Transferring? && s.server.closing.Some? && s.toServer == [] && s.toClient == []
    requires k in s.client.waiting && s.client.started in s.client.waiting && k != s.client.started
    ensures Hangs(s, k) && Completes(s, s.client.started)
  {
  }

  lemma RefusedFirstOutcome()
    ensures var s := UnderWay(REFUSED_FIRST, 2, 1025);
            s.client.pc == InTransfer && s.client.waiting.Keys == {1, 2} && Hangs(s, 1) && Completes(s, 2)
  {
    FirstEntry();
    OnlyLatestCompletes(UnderWay(REFUSED_FIRST, 2, 1025), 1);
  }

  /** A refused PASV, user name, password, an accepted PASV and NLST: either thread
      connects to the server's port. The one started for the refusal gets the
      listing across, but the client joins the other for ever, with the closing
      reply unread. The other completes. */
  lemma EarlierRefusalHangsClient()
    ensures exists s ::
              && Reachable(s) && s.client.pc == InTransfer && s.client.waiting.Keys == {1, 2}
              && Hangs(s, 1) && Completes(s, 2)
  {
    RefusedThenAccepted();
    RefusedFirstOutcome();
  }
}
