/** Client and server together, over two first-in, first-out channels and the
    data connection that the server's data thread and one of the client's set
    up. The client starts a data thread for every PASV or PORT, accepted or not;
    all of them wait on one condition, a transfer wakes any one of them, and
    whichever it is connects to the port that the latest has read. */
module FtpSystem {
  import opened Options
  import opened Text
  import opened HostPort
  import opened FtpSession
  import opened FtpClientModel
  import opened FtpRuns

  datatype ServerPc =
    | Waiting               // for a request, or for ever in a join
    | Transferring(         // first reply sent, data thread accepting
        closing: Option<Reply>,
        data: Option<string>)
    | Finishing(final: Reply)    // data thread done, final reply to be sent

  datatype System = System(
    session: Session,
    server: ServerPc,
    client: Client,
    toServer: seq<Request>,
    toClient: seq<Reply>)

  const START := System(NEW_SESSION, Waiting, NEW_CLIENT, [], [Reply(220, ServerReady)])

  datatype Action =
    | Prompt(line: string)    // the user enters a line
    | Serve(world: World)     // the server takes a request and sends its first reply
    | Wake(k: nat)            // the client's data thread k wakes and connects
    | Finish                  // the server sends the closing reply
    | Receive                 // the client takes the first reply
    | ReceiveSecond           // the client takes the closing reply

  predicate Can(s: System, a: Action) {
    match a
    case Prompt(_) => s.client.pc == AtPrompt
    case Serve(_) => s.server == Waiting && !s.session.stuck && s.toServer != []
    case Wake(k) => s.server.Transferring? && s.client.pc == InTransfer && k in s.client.waiting
    case Finish => s.server.Finishing?
    case Receive => s.client.pc == AwaitFirst && s.toClient != []
    case ReceiveSecond => s.client.pc == AwaitSecond && s.toClient != []
  }

  /** htons keeps 16 bits of a port, and nobody listens on port 0. */
  predicate Routable(port: int) {
    port % 0x1_0000 != 0
  }

  /** A connection to `port` reaches the server's data thread. */
  predicate Meets(port: int, listening: int) {
    port % 0x1_0000 == listening % 0x1_0000 && Routable(port)
  }

  /** Any data thread of the client connects to the shared port; one that cannot
      ends the client. */
  function Woken(s: System, k: nat): System {
    if !s.server.Transferring? then s
    else if Meets(s.client.port, s.session.dataPort) then
      s.(client := OnData(s.client, k, s.server.data),
         server := if s.server.closing.Some? then Finishing(s.server.closing.value) else Waiting)
    else s.(client := s.client.(pc := Failed))
  }

  function Next(s: System, a: Action): System {
    match a
    case Prompt(line) =>
      if CommandOf(line) == Unknown then s
      else s.(client := OnLine(s.client, line), toServer := s.toServer + [RequestOf(line)])
    case Serve(w) =>
      if s.toServer == [] then s
      else
        var req := s.toServer[0];
        var (session, replies) := Act(s.session, Interpret(req.command), req.body, w);
        s.(session := session, toServer := s.toServer[1..], toClient := s.toClient + replies[..1],
           server := if ExtractClass(replies[0].status) != 1 then Waiting
                     else Transferring(if |replies| == 2 then Some(replies[1]) else None,
                                       DataSent(session, w)))
    case Wake(k) => Woken(s, k)
    case Finish =>
      if s.server.Finishing? then s.(server := Waiting, toClient := s.toClient + [s.server.final]) else s
    case Receive =>
      if s.toClient == [] then s
      else s.(toClient := s.toClient[1..], client := OnReply(s.client, s.toClient[0]))
    case ReceiveSecond =>
      if s.toClient == [] then s else s.(toClient := s.toClient[1..], client := s.client.(pc := AtPrompt))
  }

  function After(actions: seq<Action>): System {
    if actions == [] then START else Next(After(actions[..|actions| - 1]), actions[|actions| - 1])
  }

  ghost predicate IsRun(actions: seq<Action>) {
    actions != [] ==>
      && IsRun(actions[..|actions| - 1])
      && Can(After(actions[..|actions| - 1]), actions[|actions| - 1])
  }

  // -------------------------------------------------------------- lockstep

  /** The closing reply is about to be sent, or has been and is unread. */
  ghost predicate Closing(s: System) {
    (s.server.Finishing? && s.toClient == []) || (s.server == Waiting && |s.toClient| == 1)
  }

  /** The server has a data thread waiting just for an open mode. */
  predicate OneThread(s: Session) {
    s.waiting == if s.auth == ModeSelected then [s.started] else []
  }

  /** Where client, server and channels can be at the same time. The client ends
      with QUIT, so no mode it has dropped ever comes before another. */
  ghost predicate Lockstep(s: System) {
    && !s.session.stuck
    && (s.client.pc != Exited && s.client.sentCommand != Quit ==> OneThread(s.session))
    && (s.server.Transferring? ==> s.server.closing.Some?)
    && InStep(s)
  }

  ghost predicate InStep(s: System) {
    match s.client.pc
    case AtPrompt => s.server == Waiting && s.toServer == [] && s.toClient == [] && s.client.sentCommand != Quit
    case Exited => s.server == Waiting && s.toServer == [] && s.toClient == []
    case Failed => !s.server.Finishing? && s.toServer == [] && s.toClient == []
    case InTransfer => s.server.Transferring? && s.toServer == [] && s.toClient == [] && IsData(s.client.sentCommand)
    case AwaitSecond => s.toServer == [] && IsData(s.client.sentCommand) && Closing(s)
    case Joining => s.toServer == [] && IsData(s.client.sentCommand) && Closing(s)
    case AwaitFirst =>
      || (s.server == Waiting && |s.toServer| == 1 && s.toClient == []
          && Interpret(s.toServer[0].command) == s.client.sentCommand)
      || (s.server == Waiting && s.toServer == [] && |s.toClient| == 1 && ExtractClass(s.toClient[0].status) != 1)
      || (s.server.Transferring? && s.toServer == [] && |s.toClient| == 1 && ExtractClass(s.toClient[0].status) == 1
          && IsData(s.client.sentCommand))
  }

  /** What a request does when the server has no thread to spare. */
  lemma ServeInStep(s: Session, command: Command, body: string, w: World)
    requires !s.stuck && OneThread(s)
    ensures var (s', replies) := Act(s, command, body, w);
            && !s'.stuck && (command != Quit ==> OneThread(s'))
            && (ExtractClass(replies[0].status) == 1 <==> |replies| == 2)
            && (|replies| == 2 ==> IsData(command))
  {
    ReplyShape(s, command, body, w);
    RequestsAndThreads(s, command, body, w);
    if s.waiting == [s.started] {
      assert w.pick % 1 == 0;
      assert AfterSignal(s.waiting, w.pick) == [];
    }
  }

  /** What a reply does to the client, but for the ports it reads. */
  predicate Moves(c: Client, status: int, c': Client) {
    && c'.sentCommand == c.sentCommand
    && (IsData(c.sentCommand) ==> c'.pc == if ExtractClass(status) == 1 then InTransfer else AtPrompt)
    && (c.sentCommand == Quit ==> c'.pc == Exited)
    && (c.sentCommand == Port ==> c'.pc == AtPrompt || c'.pc == Failed)
    && (!IsData(c.sentCommand) && c.sentCommand != Quit && c.sentCommand != Port ==> c'.pc == AtPrompt)
    && (c.sentCommand != Pasv && c.sentCommand != Port ==>
          c'.waiting == c.waiting && c'.started == c.started && c'.port == c.port)
  }

  lemma TextMoves(c: Client, status: int, text: string)
    ensures Moves(c, status, OnText(c, status, text))
  {
    match c.sentCommand
    case Pasv => assert OnText(c, status, text) == StartThread(c, ClientPassivePort(text), Accepts(Pasv, status));
    case Port =>
    case _ =>
  }

  lemma ReplyMoves(c: Client, reply: Reply)
    ensures Moves(c, reply.status, OnReply(c, reply))
  {
    TextMoves(c, reply.status, Render(reply.notice));
  }

  lemma ReceiveKeepsLockstep(s: System)
    requires Lockstep(s) && Can(s, Receive)
    ensures Lockstep(Next(s, Receive))
  {
    ReplyMoves(s.client, s.toClient[0]);
  }

  lemma ServeKeepsLockstep(s: System, w: World)
    requires Lockstep(s) && Can(s, Serve(w))
    ensures Lockstep(Next(s, Serve(w)))
  {
    var command, body := s.client.sentCommand, s.toServer[0].body;
    if command == Quit {
      assert Act(s.session, command, body, w) == (s.session.(auth := NotLoggedIn), [Reply(221, Goodbye)]);
    } else {
      ServeInStep(s.session, command, body, w);
    }
  }

  lemma StepKeepsLockstep(s: System, a: Action)
    requires Lockstep(s) && Can(s, a)
    ensures Lockstep(Next(s, a))
  {
    match a
    case Prompt(line) => ServerReadsSameCommand(line);
    case Serve(w) => ServeKeepsLockstep(s, w);
    case Receive => ReceiveKeepsLockstep(s);
    case Wake(_) =>
    case Finish =>
    case ReceiveSecond =>
  }

  lemma {:induction false} AlwaysInLockstep(actions: seq<Action>)
    requires IsRun(actions)
    ensures Lockstep(After(actions))
  {
    if actions != [] {
      AlwaysInLockstep(actions[..|actions| - 1]);
      StepKeepsLockstep(After(actions[..|actions| - 1]), actions[|actions| - 1]);
    }
  }

  /** At the prompt both channels are empty and the server waits for a request;
      whatever request it then takes, it reads as the command the client sent. */
  lemma PromptMeansQuiet(actions: seq<Action>)
    requires IsRun(actions)
    ensures var s := After(actions);
            && (s.client.pc == AtPrompt ==> s.toServer == [] && s.toClient == [] && s.server == Waiting)
            && (s.toServer != [] ==> |s.toServer| == 1 && Interpret(s.toServer[0].command) == s.client.sentCommand)
            && |s.toServer| + |s.toClient| <= 1
  {
    AlwaysInLockstep(actions);
  }

  // ------------------------------------------------------- the data threads

  /** A mode is selected, or a transfer in it under way. */
  predicate ModeIsOpen(s: System) {
    s.session.auth == ModeSelected || s.server.Transferring?
  }

  /** A reply that accepts a data port is in flight. */
  predicate SelectionInFlight(s: System) {
    s.client.pc == AwaitFirst && s.toClient != [] && Accepts(s.client.sentCommand, s.toClient[0].status)
  }

  /** The port the client will read from the reply in flight. */
  function PortInFlight(s: System): Option<int> {
    if s.toClient == [] then None else PortRead(s.client.sentCommand, s.toClient[0].notice)
  }

  function PortRead(command: Command, notice: Notice): Option<int> {
    if command == Pasv then ClientPassivePort(Render(notice)) else ClientActivePort(Render(notice))
  }

  /** The client can still get to its prompt. */
  predicate Live(c: Client) {
    c.pc == AwaitFirst || c.pc == InTransfer || c.pc == AwaitSecond || c.pc == AtPrompt
  }

  predicate TableLasts(s: System) {
    s.session.portIdx <= |PORTS|
  }

  /** The threads waiting whose reply had accepted, or refused, the command. */
  function Marked(c: Client, accepted: bool): set<nat> {
    set k | k in c.waiting && c.waiting[k].accepted == accepted
  }

  /** One thread waits for the open mode, started for the reply that accepted it,
      and the latest thread waits too. The shared address has the server's port
      if these are one and the same, and port 0 if not. */
  ghost predicate ThreadForMode(c: Client, port: int) {
    && c.started in c.waiting
    && (exists k :: Marked(c, true) == {k})
    && c.port == if c.waiting[c.started].accepted then port else 0
  }

  /** A reply that refuses PASV reads as port 0, one that refuses PORT as none. */
  predicate RefusalIsUseless(command: Command, status: int, port: Option<int>) {
    && (command == Pasv && status != 227 ==> port == Some(0))
    && (command == Port && status != 200 ==> port == None)
  }

  /** There is an accepted thread just while a mode is open and its reply has been
      read, and the shared address is as above. `port` is the one in flight. */
  ghost predicate ThreadsFit(s: System, port: Option<int>) {
    var c := s.client;
    && (forall k | k in c.waiting :: k <= c.started)
    && (s.server != Waiting ==> s.session.auth == LoggedIn)
    && (c.pc == AwaitFirst && s.toClient != [] ==> RefusalIsUseless(c.sentCommand, s.toClient[0].status, port))
    && (Live(c) && c.sentCommand != Quit && TableLasts(s) ==>
          if SelectionInFlight(s) then ModeIsOpen(s) && Marked(c, true) == {} && port == Some(s.session.dataPort)
          else if ModeIsOpen(s) then ThreadForMode(c, s.session.dataPort)
          else Marked(c, true) == {})
  }

  ghost predicate ThreadsInv(s: System) {
    ThreadsFit(s, PortInFlight(s))
  }

  /** What one request does to the port, and to the state that counts here. */
  predicate KeepsPort(s: Session, command: Command, body: string, w: World) {
    var (s', replies) := Act(s, command, body, w);
    var d := FinalStatus(s, command, body, w);
    && (|replies| == 2 ==> s.auth == ModeSelected && IsData(command))
    && (s.auth == ModeSelected && command != Quit ==> s'.auth == ModeSelected || |replies| == 2)
    && (s'.auth == ModeSelected && !IsSelection(d) ==> s.auth == ModeSelected)
    && (IsSelection(d) ==> |replies| == 1 && replies[0].status == d.status && s.auth == LoggedIn
                           && s'.auth == ModeSelected)
    && (!IsSelection(d) ==> s'.dataPort == s.dataPort)
  }

  lemma DataKeepsPort(s: Session, command: Command, body: string, w: World)
    requires IsData(command)
    ensures KeepsPort(s, command, body, w)
  {
    ReplyShape(s, command, body, w);
  }

  lemma SelectionKeepsPort(s: Session, command: Command, body: string, w: World)
    requires command == Pasv || command == Port
    ensures KeepsPort(s, command, body, w)
  {
  }

  lemma ServeKeepsPort(s: Session, command: Command, body: string, w: World)
    ensures KeepsPort(s, command, body, w)
  {
    if IsData(command) {
      DataKeepsPort(s, command, body, w);
    } else if command == Pasv || command == Port {
      SelectionKeepsPort(s, command, body, w);
    }
  }

  lemma TableKeeps(s: Session, command: Command, body: string, w: World)
    ensures s.portIdx <= Act(s, command, body, w).0.portIdx
  {
  }

  /** What the server says to PASV and PORT when it does not accept them. */
  lemma RefusalNotices(s: Session, command: Command, body: string, w: World)
    requires command == Pasv || command == Port
    ensures var (s', replies) := Act(s, command, body, w);
            !Accepts(command, replies[0].status) ==>
              replies[0].notice == NotAuthorized || replies[0].notice == InternalError
              || (command == Port && replies[0].notice == InvalidPort)
  {
  }

  lemma NoColonReadsAsNone(text: string)
    requires text != "" && Clean(text, ":")
    ensures ClientActivePort(text) == None
  {
    FirstTokenIs(text, "", ":");
    assert text + "" == text;
  }

  lemma RefusalTextsAreClean()
    ensures Render(NotAuthorized) != "" && Clean(Render(NotAuthorized), "|") && Clean(Render(NotAuthorized), ":")
    ensures Render(InternalError) != "" && Clean(Render(InternalError), "|") && Clean(Render(InternalError), ":")
    ensures Render(InvalidPort) != "" && Clean(Render(InvalidPort), ":")
  {
    NotAuthorizedIsClean("|");
    NotAuthorizedIsClean(":");
    InternalErrorIsClean("|");
    InternalErrorIsClean(":");
    InvalidPortIsClean();
  }

  lemma NotAuthorizedIsClean(d: string)
    requires d == "|" || d == ":"
    ensures Render(NotAuthorized) != "" && Clean(Render(NotAuthorized), d)
  {
    assert Clean("operation not ", d) && Clean("authroized. ", d);
    assert Clean("Please login", d) && Clean(" first.", d);
    CleanConcat("operation not ", "authroized. ", d);
    CleanConcat("operation not authroized. ", "Please login", d);
    CleanConcat("operation not authroized. Please login", " first.", d);
    assert Render(NotAuthorized) == "operation not authroized. Please login" + " first.";
  }

  lemma InternalErrorIsClean(d: string)
    requires d == "|" || d == ":"
    ensures Render(InternalError) != "" && Clean(Render(InternalError), d)
  {
    assert Clean("Internal Se", d) && Clean("rver Error", d);
    CleanConcat("Internal Se", "rver Error", d);
    assert Render(InternalError) == "Internal Se" + "rver Error";
  }

  lemma InvalidPortIsClean()
    ensures Render(InvalidPort) != "" && Clean(Render(InvalidPort), ":")
  {
    assert Clean("invalid port ", ":") && Clean("number enco", ":");
    assert Clean("untered. Try", ":") && Clean(" Agiain", ":");
    CleanConcat("invalid port ", "number enco", ":");
    CleanConcat("invalid port number enco", "untered. Try", ":");
    CleanConcat("invalid port number encountered. Try", " Agiain", ":");
    assert Render(InvalidPort) == "invalid port number encountered. Try" + " Agiain";
  }

  lemma RefusalsAreUseless(s: Session, command: Command, body: string, w: World)
    ensures var reply := Act(s, command, body, w).1[0];
            RefusalIsUseless(command, reply.status, PortRead(command, reply.notice))
  {
    var reply := Act(s, command, body, w).1[0];
    if (command == Pasv || command == Port) && !Accepts(command, reply.status) {
      RefusalNotices(s, command, body, w);
      UselessNotices(command, reply.notice);
    }
  }

  lemma UselessNotices(command: Command, notice: Notice)
    requires notice == NotAuthorized || notice == InternalError || (command == Port && notice == InvalidPort)
    ensures command == Pasv ==> PortRead(command, notice) == Some(0)
    ensures command == Port ==> PortRead(command, notice) == None
  {
    RefusalTextsAreClean();
    if command == Pasv {
      NoBarReadsAsZero(Render(notice));
    }
    if command == Port {
      NoColonReadsAsNone(Render(notice));
    }
  }

  lemma SelectionPort(s: Session, command: Command, body: string, w: World)
    requires IsSelection(FinalStatus(s, command, body, w))
    requires Act(s, command, body, w).0.portIdx <= |PORTS|
    ensures var (s', replies) := Act(s, command, body, w); PortRead(command, replies[0].notice) == Some(s'.dataPort)
  {
    if command == Pasv {
      PassivePortsInStep(s, body, w);
    } else {
      ActivePortsInStep(s, body, w);
    }
  }

  /** How the reply to a request reads, as far as it matters. */
  predicate ReadsRight(s: Session, command: Command, body: string, w: World, port: Option<int>) {
    var (s', replies) := Act(s, command, body, w);
    && RefusalIsUseless(command, replies[0].status, port)
    && (IsSelection(FinalStatus(s, command, body, w)) && s'.portIdx <= |PORTS| ==> port == Some(s'.dataPort))
  }

  lemma RepliesReadRight(s: Session, command: Command, body: string, w: World)
    ensures ReadsRight(s, command, body, w, PortRead(command, Act(s, command, body, w).1[0].notice))
  {
    RefusalsAreUseless(s, command, body, w);
    if IsSelection(FinalStatus(s, command, body, w)) && Act(s, command, body, w).0.portIdx <= |PORTS| {
      SelectionPort(s, command, body, w);
    }
  }

  /** What of a served request the threads depend on. */
  predicate PortMoves(s: Session, command: Command, s': Session, replies: seq<Reply>, port: Option<int>)
    requires replies != []
  {
    var accepted, double := Accepts(command, replies[0].status), |replies| == 2;
    && s.portIdx <= s'.portIdx
    && (double ==> s.auth == ModeSelected && s'.auth == LoggedIn)
    && RefusalIsUseless(command, replies[0].status, port)
    && (accepted ==> s.auth == LoggedIn && s'.auth == ModeSelected && !double)
    && (accepted && s'.portIdx <= |PORTS| ==> port == Some(s'.dataPort))
    && (!accepted ==> s'.dataPort == s.dataPort)
    && (!accepted && command != Quit ==> (s.auth == ModeSelected <==> s'.auth == ModeSelected || double))
  }

  lemma ServeMovesPort(s: Session, command: Command, body: string, w: World, port: Option<int>)
    requires !s.stuck && (command != Quit ==> OneThread(s)) && ReadsRight(s, command, body, w, port)
    ensures PortMoves(s, command, Act(s, command, body, w).0, Act(s, command, body, w).1, port)
  {
    TableKeeps(s, command, body, w);
    if command == Quit {
      assert Act(s, command, body, w) == (s.(auth := NotLoggedIn), [Reply(221, Goodbye)]);
    } else {
      ServeKeepsPort(s, command, body, w);
      ServeInStep(s, command, body, w);
      TransferLeavesLoggedIn(s, command, body, w);
    }
  }

  /** The server has sent its first reply. */
  lemma ServedFits(s: System, s': System, replies: seq<Reply>, port: Option<int>)
    requires Lockstep(s) && ThreadsFit(s, None) && s.client.pc == AwaitFirst && s.server == Waiting && s.toClient == []
    requires replies != [] && PortMoves(s.session, s.client.sentCommand, s'.session, replies, port)
    requires s'.client == s.client && s'.toClient == [replies[0]]
    requires s'.server.Transferring? <==> |replies| == 2
    requires !s'.server.Finishing?
    ensures ThreadsFit(s', port)
  {
    assert SelectionInFlight(s') <==> Accepts(s.client.sentCommand, replies[0].status);
  }

  lemma ServeFits(s: System, w: World, port: Option<int>)
    requires Lockstep(s) && ThreadsFit(s, None) && Can(s, Serve(w))
    requires ReadsRight(s.session, s.client.sentCommand, s.toServer[0].body, w, port)
    ensures ThreadsFit(Next(s, Serve(w)), port)
  {
    var body, command := s.toServer[0].body, s.client.sentCommand;
    ServeSendsFirst(s, w);
    ServeMovesPort(s.session, command, body, w, port);
    ServedFits(s, Next(s, Serve(w)), Act(s.session, command, body, w).1, port);
  }

  lemma ServeSendsFirst(s: System, w: World)
    requires Lockstep(s) && Can(s, Serve(w))
    ensures Next(s, Serve(w)).toClient == [Act(s.session, s.client.sentCommand, s.toServer[0].body, w).1[0]]
    ensures Next(s, Serve(w)).client == s.client
    ensures Next(s, Serve(w)).session == Act(s.session, s.client.sentCommand, s.toServer[0].body, w).0
    ensures !Next(s, Serve(w)).server.Finishing?
    ensures Next(s, Serve(w)).server.Transferring? <==>
            |Act(s.session, s.client.sentCommand, s.toServer[0].body, w).1| == 2
  {
    var command, body := s.client.sentCommand, s.toServer[0].body;
    if command == Quit {
      assert Act(s.session, command, body, w) == (s.session.(auth := NotLoggedIn), [Reply(221, Goodbye)]);
    } else {
      ServeInStep(s.session, command, body, w);
    }
  }

  lemma ServeKeepsThreads(s: System, w: World)
    requires Lockstep(s) && ThreadsInv(s) && Can(s, Serve(w))
    ensures ThreadsInv(Next(s, Serve(w)))
  {
    var body, command := s.toServer[0].body, s.client.sentCommand;
    ServeSendsFirst(s, w);
    RepliesReadRight(s.session, command, body, w);
    ServeFits(s, w, PortRead(command, Act(s.session, command, body, w).1[0].notice));
  }

  lemma TransferLeavesLoggedIn(s: Session, command: Command, body: string, w: World)
    ensures |Act(s, command, body, w).1| == 2 ==> Act(s, command, body, w).0.auth == LoggedIn
  {
  }

  /** A thread more, waiting or not. */
  lemma StartThreadMarks(c: Client, port: Option<int>, accepted: bool, mark: bool)
    requires forall k | k in c.waiting :: k <= c.started
    ensures Marked(StartThread(c, port, accepted), mark) ==
            Marked(c, mark) + if port.Some? && accepted == mark then {c.started + 1} else {}
  {
  }

  /** The reply to PASV or PORT has been read. */
  function PortRegistered(c: Client, status: int, port: Option<int>): Client {
    if c.sentCommand == Port && port.None? then c.(pc := Failed)
    else StartThread(c, port, Accepts(c.sentCommand, status))
  }

  function PortTaken(s: System, port: Option<int>): System
    requires s.toClient != []
  {
    s.(toClient := s.toClient[1..], client := PortRegistered(s.client, s.toClient[0].status, port))
  }

  lemma TextRegistersPort(c: Client, status: int, text: string)
    requires c.sentCommand == Pasv || c.sentCommand == Port
    ensures OnText(c, status, text) ==
            PortRegistered(c, status, if c.sentCommand == Pasv then ClientPassivePort(text) else ClientActivePort(text))
  {
  }

  lemma ReceiveTakesPort(s: System)
    requires Can(s, Receive) && (s.client.sentCommand == Pasv || s.client.sentCommand == Port)
    ensures Next(s, Receive) == PortTaken(s, PortInFlight(s))
  {
    TextRegistersPort(s.client, s.toClient[0].status, Render(s.toClient[0].notice));
  }

  lemma PortTakenFits(s: System, port: Option<int>, port': Option<int>)
    requires Lockstep(s) && ThreadsFit(s, port) && s.client.pc == AwaitFirst && s.toClient != []
    requires s.client.sentCommand == Pasv || s.client.sentCommand == Port
    ensures ThreadsFit(PortTaken(s, port), port')
  {
    var c, c', accepted := s.client, PortTaken(s, port).client, Accepts(s.client.sentCommand, s.toClient[0].status);
    StartThreadMarks(c, port, accepted, true);
    if Live(c') && TableLasts(s) {
      assert accepted ==> Marked(c', true) == {c.started + 1};
      assert port.Some? ==> c'.started in c'.waiting && c'.waiting[c'.started].accepted == accepted;
    }
  }

  lemma OtherReplyFits(s: System, c': Client, port: Option<int>, port': Option<int>)
    requires Lockstep(s) && ThreadsFit(s, port) && s.client.pc == AwaitFirst && s.toClient != []
    requires s.client.sentCommand != Pasv && s.client.sentCommand != Port
    requires Moves(s.client, s.toClient[0].status, c')
    ensures ThreadsFit(s.(toClient := s.toClient[1..], client := c'), port')
  {
    assert Marked(c', true) == Marked(s.client, true);
  }

  lemma ReceiveFits(s: System, port': Option<int>)
    requires Lockstep(s) && ThreadsInv(s) && Can(s, Receive)
    ensures ThreadsFit(Next(s, Receive), port')
  {
    if s.client.sentCommand == Pasv || s.client.sentCommand == Port {
      ReceiveTakesPort(s);
      PortTakenFits(s, PortInFlight(s), port');
    } else {
      ReplyMoves(s.client, s.toClient[0]);
      OtherReplyFits(s, Next(s, Receive).client, PortInFlight(s), port');
    }
  }

  /** A wake-up that connects finds the latest thread accepted, and if the client
      goes on from it that is the one woken. */
  lemma WakeFits(s: System, k: nat, port: Option<int>, port': Option<int>)
    requires Lockstep(s) && ThreadsFit(s, port) && Can(s, Wake(k))
    ensures ThreadsFit(Next(s, Wake(k)), port')
    ensures TableLasts(s) && Live(Next(s, Wake(k)).client) ==> k == s.client.started && s.client.waiting[k].accepted
  {
    var c, s' := s.client, Next(s, Wake(k));
    if Live(s'.client) && TableLasts(s) {
      assert c.started in Marked(c, true);
      assert Marked(s'.client, true) == Marked(c, true) - {k};
    }
  }

  /** The steps that touch no thread and no reply in flight to the client. */
  lemma QuietStepFits(s: System, a: Action, port: Option<int>, port': Option<int>)
    requires Lockstep(s) && ThreadsFit(s, port) && Can(s, a) && (a.Prompt? || a.Finish? || a.ReceiveSecond?)
    ensures ThreadsFit(Next(s, a), port')
  {
  }

  lemma StepKeepsThreads(s: System, a: Action)
    requires Lockstep(s) && ThreadsInv(s) && Can(s, a)
    ensures ThreadsInv(Next(s, a))
  {
    var port := PortInFlight(Next(s, a));
    match a
    case Serve(w) => ServeKeepsThreads(s, w);
    case Receive => ReceiveFits(s, port);
    case Wake(k) => WakeFits(s, k, PortInFlight(s), port);
    case _ => QuietStepFits(s, a, PortInFlight(s), port);
  }

  lemma {:induction false} ThreadsAlwaysFit(actions: seq<Action>)
    requires IsRun(actions)
    ensures Lockstep(After(actions)) && ThreadsInv(After(actions))
  {
    if actions != [] {
      var before := actions[..|actions| - 1];
      ThreadsAlwaysFit(before);
      StepKeepsLockstep(After(before), actions[|actions| - 1]);
      StepKeepsThreads(After(before), actions[|actions| - 1]);
    }
  }

  /** The same, for those who need not know how a reply is read. */
  lemma ThreadsHold(actions: seq<Action>) returns (port: Option<int>)
    requires IsRun(actions)
    ensures Lockstep(After(actions)) && ThreadsFit(After(actions), port)
  {
    ThreadsAlwaysFit(actions);
    port := PortInFlight(After(actions));
  }

  // ------------------------------------------------------ refusals and wake-ups

  /** The client reads a reply that refuses `command`. */
  predicate ReadsRefusal(s: System, a: Action, command: Command) {
    a.Receive? && s.toClient != [] && s.client.sentCommand == command && !Accepts(command, s.toClient[0].status)
  }

  predicate Refused(actions: seq<Action>, command: Command) {
    actions != [] &&
    var before, a := actions[..|actions| - 1], actions[|actions| - 1];
    Refused(before, command) || ReadsRefusal(After(before), a, command)
  }

  lemma PortTakenCounts(s: System, port: Option<int>)
    requires Lockstep(s) && ThreadsFit(s, port) && s.client.pc == AwaitFirst && s.toClient != []
    requires s.client.sentCommand == Pasv || s.client.sentCommand == Port
    requires Live(PortTaken(s, port).client)
    ensures Marked(PortTaken(s, port).client, false) != {} <==>
            Marked(s.client, false) != {} || (s.client.sentCommand == Pasv && !Accepts(Pasv, s.toClient[0].status))
  {
    StartThreadMarks(s.client, port, Accepts(s.client.sentCommand, s.toClient[0].status), false);
  }

  lemma ReceiveCountsRefusals(s: System)
    requires Lockstep(s) && ThreadsInv(s) && Can(s, Receive) && Live(Next(s, Receive).client)
    ensures Marked(Next(s, Receive).client, false) != {} <==>
            Marked(s.client, false) != {} || (s.client.sentCommand == Pasv && !Accepts(Pasv, s.toClient[0].status))
  {
    if s.client.sentCommand == Pasv || s.client.sentCommand == Port {
      ReceiveTakesPort(s);
      PortTakenCounts(s, PortInFlight(s));
    } else {
      ReplyMoves(s.client, s.toClient[0]);
      assert Marked(Next(s, Receive).client, false) == Marked(s.client, false);
    }
  }

  lemma StepCountsRefusals(s: System, a: Action)
    requires Lockstep(s) && ThreadsInv(s) && TableLasts(s) && Can(s, a) && Live(Next(s, a).client)
    ensures Live(s.client)
    ensures Marked(Next(s, a).client, false) != {} <==> Marked(s.client, false) != {} || ReadsRefusal(s, a, Pasv)
  {
    match a
    case Receive => ReceiveCountsRefusals(s);
    case Wake(k) =>
      WakeFits(s, k, PortInFlight(s), None);
      assert Marked(Next(s, a).client, false) == Marked(s.client, false);
    case _ => assert Marked(Next(s, a).client, false) == Marked(s.client, false);
  }

  /** A useless thread is waiting if and only if some PASV was ever refused. */
  lemma {:induction false} UselessIffRefused(actions: seq<Action>)
    requires IsRun(actions) && TableLasts(After(actions)) && Live(After(actions).client)
    ensures Marked(After(actions).client, false) != {} <==> Refused(actions, Pasv)
  {
    if actions != [] {
      var before, a := actions[..|actions| - 1], actions[|actions| - 1];
      ThreadsAlwaysFit(before);
      TableOnlyShrinks(After(before), a);
      StepCountsRefusals(After(before), a);
      UselessIffRefused(before);
    }
  }

  lemma TableOnlyShrinks(s: System, a: Action)
    requires Lockstep(s) && Can(s, a) && TableLasts(Next(s, a))
    ensures TableLasts(s)
  {
    if a.Serve? {
      TableKeeps(s.session, s.client.sentCommand, s.toServer[0].body, a.world);
    }
  }

  /** The client reads a reply that accepts a data port. */
  predicate ReadsAcceptance(s: System, a: Action) {
    a.Receive? && s.toClient != [] && Accepts(s.client.sentCommand, s.toClient[0].status)
  }

  /** A PASV was refused since the client last read that a port was accepted. */
  predicate RefusedSince(actions: seq<Action>) {
    actions != [] &&
    var before, a := actions[..|actions| - 1], actions[|actions| - 1];
    !ReadsAcceptance(After(before), a) && (ReadsRefusal(After(before), a, Pasv) || RefusedSince(before))
  }

  /** The client has read the acceptance of the mode that is open. */
  predicate ModeTaken(s: System) {
    Live(s.client) && s.client.sentCommand != Quit && ModeIsOpen(s) && !SelectionInFlight(s)
  }

  /** The latest thread was started for a refusal. */
  predicate LatestRefused(c: Client) {
    c.started in c.waiting && !c.waiting[c.started].accepted
  }

  lemma PortTakenIsLatest(s: System, port: Option<int>)
    requires Lockstep(s) && ThreadsFit(s, port) && s.client.pc == AwaitFirst && s.toClient != []
    requires s.client.sentCommand == Pasv || s.client.sentCommand == Port
    requires Live(PortTaken(s, port).client) && TableLasts(s)
    ensures Accepts(s.client.sentCommand, s.toClient[0].status) ==> !LatestRefused(PortTaken(s, port).client)
    ensures !Accepts(s.client.sentCommand, s.toClient[0].status) ==>
              s.client.sentCommand == Pasv && LatestRefused(PortTaken(s, port).client)
  {
  }

  lemma ReceiveKeepsLatest(s: System, since: bool)
    requires Lockstep(s) && ThreadsInv(s) && TableLasts(s) && Can(s, Receive) && ModeTaken(Next(s, Receive))
    requires ModeTaken(s) ==> (since <==> LatestRefused(s.client))
    ensures LatestRefused(Next(s, Receive).client) <==>
            !ReadsAcceptance(s, Receive) && (ReadsRefusal(s, Receive, Pasv) || since)
  {
    if s.client.sentCommand == Pasv || s.client.sentCommand == Port {
      ReceiveTakesPort(s);
      PortTakenIsLatest(s, PortInFlight(s));
    } else {
      ReplyMoves(s.client, s.toClient[0]);
    }
  }

  /** The other steps open no mode and start no thread. */
  lemma OthersKeepLatest(s: System, a: Action, since: bool)
    requires Lockstep(s) && ThreadsInv(s) && TableLasts(s) && Can(s, a) && !a.Receive? && ModeTaken(Next(s, a))
    requires ModeTaken(s) ==> (since <==> LatestRefused(s.client))
    ensures LatestRefused(Next(s, a).client) <==> since
  {
    if a.Serve? {
      var command, body := s.client.sentCommand, s.toServer[0].body;
      ServeSendsFirst(s, a.world);
      ServeKeepsPort(s.session, command, body, a.world);
      ServeInStep(s.session, command, body, a.world);
    } else if a.Wake? {
      WakeFits(s, a.k, PortInFlight(s), None);
    }
  }

  lemma {:induction false} LatestIffRefusedSince(actions: seq<Action>)
    requires IsRun(actions) && TableLasts(After(actions)) && ModeTaken(After(actions))
    ensures LatestRefused(After(actions).client) <==> RefusedSince(actions)
  {
    if actions != [] {
      var before, a := actions[..|actions| - 1], actions[|actions| - 1];
      ThreadsAlwaysFit(before);
      TableOnlyShrinks(After(before), a);
      if ModeTaken(After(before)) {
        LatestIffRefusedSince(before);
      }
      if a.Receive? {
        ReceiveKeepsLatest(After(before), RefusedSince(before));
      } else {
        OthersKeepLatest(After(before), a, RefusedSince(before));
      }
    }
  }

  /** The port that any wake-up for a transfer connects to: the server's if no
      PASV was refused since the mode was selected, and 0 otherwise. */
  lemma TransferOnOnePort(actions: seq<Action>)
    requires IsRun(actions) && TableLasts(After(actions)) && After(actions).client.pc == InTransfer
    ensures var s := After(actions); s.client.port == if RefusedSince(actions) then 0 else s.session.dataPort
  {
    var _ := ThreadsHold(actions);
    LatestIffRefusedSince(actions);
  }

  /** Waking thread `k` reaches the server. */
  predicate Connects(s: System, k: nat) {
    Next(s, Wake(k)).client.pc != Failed
  }

  /** Waking thread `k` gets the client on with the transfer. */
  predicate Completes(s: System, k: nat) {
    Next(s, Wake(k)).client.pc == AwaitSecond
  }

  /** A transfer is under way on both sides. */
  ghost predicate BothSides(s: System, port: Option<int>) {
    && Lockstep(s) && ThreadsFit(s, port) && TableLasts(s)
    && s.client.pc == InTransfer
  }

  lemma OneWake(s: System, port: Option<int>, k: nat)
    requires BothSides(s, port) && k in s.client.waiting
    ensures Connects(s, k) <==> !LatestRefused(s.client) && Routable(s.session.dataPort)
    ensures Completes(s, k) <==> Connects(s, k) && k == s.client.started
    ensures Connects(s, k) ==> Next(s, Wake(k)).server.Finishing?
    ensures Connects(s, k) && k != s.client.started ==> Next(s, Wake(k)).client.pc == Joining
    ensures !Connects(s, k) ==> Next(s, Wake(k)) == s.(client := s.client.(pc := Failed))
  {
  }

  /** What each wake-up leads to. It connects if and only if no PASV was refused
      since the mode was selected and the port can be reached; it completes if and
      only if moreover the thread is the latest. One that connects otherwise
      leaves the client joining a thread that never ends; one that does not ends
      the client, with the server accepting for ever. */
  lemma WakeOutcome(actions: seq<Action>, k: nat)
    requires IsRun(actions) && TableLasts(After(actions)) && Can(After(actions), Wake(k))
    ensures var s, s' := After(actions), Next(After(actions), Wake(k));
            && (Connects(s, k) <==> !RefusedSince(actions) && Routable(s.session.dataPort))
            && (Completes(s, k) <==> Connects(s, k) && k == s.client.started)
            && (Connects(s, k) && !Completes(s, k) ==> s'.client.pc == Joining && s'.server.Finishing?)
            && (!Connects(s, k) ==> s'.client.pc == Failed && s'.server.Transferring?)
  {
    var port := ThreadsHold(actions);
    LatestIffRefusedSince(actions);
    OneWake(After(actions), port, k);
  }

  /** Some wake-up for a transfer completes it if and only if no PASV was refused
      since the mode was selected, and the port can be reached. */
  lemma SomeWakeCompletesIff(actions: seq<Action>)
    requires IsRun(actions) && TableLasts(After(actions)) && After(actions).client.pc == InTransfer
    ensures var s := After(actions);
            (exists k :: k in s.client.waiting && Completes(s, k)) <==>
            !RefusedSince(actions) && Routable(s.session.dataPort)
  {
    var port := ThreadsHold(actions);
    var s := After(actions);
    LatestIffRefusedSince(actions);
    assert s.client.started in s.client.waiting;
    OneWake(s, port, s.client.started);
    forall k | k in s.client.waiting ensures Completes(s, k) ==> Connects(s, s.client.started) {
      OneWake(s, port, k);
    }
  }

  lemma OnlyLatestWaits(c: Client)
    requires c.started in c.waiting && (exists k :: Marked(c, true) == {k})
    ensures Marked(c, false) == {} <==> c.waiting.Keys == {c.started} && !LatestRefused(c)
  {
    var k :| Marked(c, true) == {k};
    if Marked(c, false) == {} {
      forall n | n in c.waiting ensures n == k {
        assert n in if c.waiting[n].accepted then Marked(c, true) else Marked(c, false);
      }
      assert c.waiting.Keys == {k};
    } else {
      var n :| n in Marked(c, false);
      assert n in c.waiting.Keys;
    }
  }

  /** A transfer completes whichever thread is woken for it if and only if no PASV
      has been refused in the whole run, and the port can be reached; and there
      always is a thread to wake. */
  lemma EveryWakeCompletesIff(actions: seq<Action>)
    requires IsRun(actions) && TableLasts(After(actions)) && After(actions).client.pc == InTransfer
    ensures var s := After(actions);
            && s.client.waiting != map[]
            && ((forall k | k in s.client.waiting :: Completes(s, k)) <==>
                !Refused(actions, Pasv) && Routable(s.session.dataPort))
  {
    var port := ThreadsHold(actions);
    var s := After(actions);
    UselessIffRefused(actions);
    OnlyLatestWaits(s.client);
    forall k | k in s.client.waiting
      ensures Completes(s, k) <==> !LatestRefused(s.client) && Routable(s.session.dataPort) && k == s.client.started
    {
      OneWake(s, port, k);
    }
    if Marked(s.client, false) != {} && !LatestRefused(s.client) {
      var k :| k in s.client.waiting && k != s.client.started;
      assert !Completes(s, k);
    }
  }

  // ---------------------------------------------------------------- progress

  /** Steps left until the client is back at its prompt. */
  function Remaining(s: System): nat {
    match s.client.pc
    case AtPrompt => 0
    case Exited => 0
    case Failed => 0
    case AwaitFirst => if s.toServer != [] then 6 else 5
    case InTransfer => 4
    case AwaitSecond => if s.server.Finishing? then 3 else 2
    case Joining => if s.server.Finishing? then 1 else 0
  }

  /** In every reachable state every step but the user's brings the client closer
      to its prompt or its end; and while it is live and not at its prompt, some
      such step is possible. */
  lemma EveryCommandProceeds(actions: seq<Action>, w: World)
    requires IsRun(actions)
    ensures var s := After(actions);
            && (Live(s.client) && TableLasts(s) && s.client.pc != AtPrompt ==> exists a :: Can(s, a) && !a.Prompt?)
            && forall a | Can(s, a) && !a.Prompt? :: Remaining(Next(s, a)) < Remaining(s)
  {
    var port := ThreadsHold(actions);
    var s := After(actions);
    if Live(s.client) && TableLasts(s) && s.client.pc != AtPrompt {
      SomeStepIsPossible(s, port, w);
    }
    forall a | Can(s, a) && !a.Prompt?
      ensures Remaining(Next(s, a)) < Remaining(s)
    {
      StepGetsCloser(s, a);
    }
  }

  lemma SomeStepIsPossible(s: System, port: Option<int>, w: World)
    requires Lockstep(s) && ThreadsFit(s, port) && Live(s.client) && TableLasts(s) && s.client.pc != AtPrompt
    ensures exists a :: Can(s, a) && !a.Prompt?
  {
    match s.client.pc
    case InTransfer =>
      assert Can(s, Wake(s.client.started));
    case AwaitSecond => assert Can(s, Finish) || Can(s, ReceiveSecond);
    case AwaitFirst => assert Can(s, Serve(w)) || Can(s, Receive);
  }

  lemma StepGetsCloser(s: System, a: Action)
    requires Lockstep(s) && Can(s, a) && !a.Prompt?
    ensures Remaining(Next(s, a)) < Remaining(s)
  {
    StepKeepsLockstep(s, a);
  }

  /** A transfer was begun on a port that no connection can reach. */
  predicate BegunUnroutable(actions: seq<Action>) {
    actions != [] &&
    var before, a := actions[..|actions| - 1], actions[|actions| - 1];
    BegunUnroutable(before) || (a.Wake? && !Routable(After(before).session.dataPort))
  }

  /** Nothing else can stop the client: it fails or hangs only after a refused
      PASV or PORT, or in a transfer on port 0. */
  lemma {:induction false} StopsOnlyAfterRefusal(actions: seq<Action>)
    requires IsRun(actions) && TableLasts(After(actions))
    requires After(actions).client.pc == Failed || After(actions).client.pc == Joining
    ensures Refused(actions, Pasv) || Refused(actions, Port) || BegunUnroutable(actions)
  {
    var before, a := actions[..|actions| - 1], actions[|actions| - 1];
    AlwaysInLockstep(before);
    TableOnlyShrinks(After(before), a);
    if !Live(After(before).client) {
      StoppedStaysStopped(After(before), a);
      StopsOnlyAfterRefusal(before);
    } else if a.Wake? {
      EveryWakeCompletesIff(before);
      assert !Completes(After(before), a.k);
    } else {
      ThreadsAlwaysFit(before);
      FailsReadingPort(After(before), a);
    }
  }

  lemma StoppedStaysStopped(s: System, a: Action)
    requires Lockstep(s) && Can(s, a) && !Live(s.client)
    ensures Next(s, a).client == s.client
  {
  }

  lemma PortTakenFails(s: System, port: Option<int>)
    requires Lockstep(s) && ThreadsFit(s, port) && TableLasts(s) && s.client.pc == AwaitFirst && s.toClient != []
    requires s.client.sentCommand == Port && PortTaken(s, port).client.pc == Failed
    ensures !Accepts(Port, s.toClient[0].status)
  {
  }

  lemma FailsReadingPort(s: System, a: Action)
    requires Lockstep(s) && ThreadsInv(s) && TableLasts(s) && Can(s, a) && Live(s.client) && !a.Wake?
    requires Next(s, a).client.pc == Failed || Next(s, a).client.pc == Joining
    ensures ReadsRefusal(s, a, Port)
  {
    if a.Receive? {
      ReplyMoves(s.client, s.toClient[0]);
      ReceiveTakesPort(s);
      PortTakenFails(s, PortInFlight(s));
    }
  }
}
