/** What a transfer carries, end to end: from the file or directory that the
    user's lines name to what the client keeps, shows and writes. */
module FtpTransfer {
  import opened Options
  import opened Text
  import opened Listing
  import opened DataMessage
  import opened FtpSession
  import opened FtpClientModel
  import opened FtpRuns
  import opened FtpHistory
  import opened FtpSystem

  // ------------------------------------------- the server's run in the system

  /** The requests the server has served, and what it found outside itself. */
  function ServedInputs(actions: seq<Action>): seq<Input> {
    if actions == [] then []
    else
      var before, a := actions[..|actions| - 1], actions[|actions| - 1];
      ServedInputs(before) +
      if a.Serve? && After(before).toServer != [] then [Input(After(before).toServer[0], a.world)] else []
  }

  /** The server of the system is the server by itself, on the requests it gets. */
  lemma {:induction false} SessionIsRun(actions: seq<Action>)
    requires IsRun(actions)
    ensures After(actions).session == Run(ServedInputs(actions)) && !After(actions).session.stuck
  {
    AlwaysInLockstep(actions);
    if actions != [] {
      var before, a := actions[..|actions| - 1], actions[|actions| - 1];
      SessionIsRun(before);
      AlwaysInLockstep(before);
      var inputs := ServedInputs(before);
      assert inputs + [] == inputs;
      if a.Serve? {
        assert ServedInputs(actions)[..|inputs|] == inputs;
      }
    }
  }

  // ------------------------------------------------------ what the lines name

  /** The latest line that was sent as a request. */
  function LatestLine(actions: seq<Action>): string {
    if actions == [] then ""
    else
      var a := actions[|actions| - 1];
      if a.Prompt? && CommandOf(a.line) != Unknown then a.line else LatestLine(actions[..|actions| - 1])
  }

  /** What the server found outside itself when it served the latest request. */
  function LatestWorld(actions: seq<Action>): World {
    if actions == [] then World([], map[], [], 0, false, 0)
    else if actions[|actions| - 1].Serve? then actions[|actions| - 1].world
    else LatestWorld(actions[..|actions| - 1])
  }

  /** The client has the data of the transfer. */
  predicate HasData(c: Client) {
    c.pc == AwaitSecond || c.pc == Joining
  }

  /** A transfer is under way, or over but for its closing reply. */
  predicate InData(s: System) {
    s.server.Transferring? || HasData(s.client)
  }

  /** The latest line is what was sent, and RETR keeps the name it asks for. */
  ghost predicate LineFits(s: System, line: string) {
    && (IsData(s.client.sentCommand) ==> CommandOf(line) == s.client.sentCommand)
    && (IsData(s.client.sentCommand) && s.toServer != [] ==> s.toServer[0] == RequestOf(line))
    && (s.client.sentCommand == Retr && (s.client.pc == AwaitFirst || s.client.pc == InTransfer) ==>
          s.client.fileName == SecondWord(line))
    && (s.client.sentCommand == Retr && HasData(s.client) ==> s.client.fileName == SecondWord(line) + "fromServer")
  }

  /** What is on its way, and what the client holds, is what the server had. */
  ghost predicate DataFits(s: System, line: string, w: World) {
    InData(s) && s.client.pc != Failed ==>
      && s.session.dataCommand == s.client.sentCommand
      && (s.client.sentCommand == Retr ==> s.session.fileName == SecondWord(line))
      && (s.server.Transferring? ==> s.server.data == DataSent(s.session, w))
      && (HasData(s.client) ==> s.client.serverData == DataSent(s.session, w))
  }

  lemma PromptFits(s: System, typed: string, line: string)
    requires Lockstep(s) && LineFits(s, line) && Can(s, Prompt(typed))
    ensures LineFits(Next(s, Prompt(typed)), if CommandOf(typed) != Unknown then typed else line)
  {
    RequestIsTwoWords(typed);
  }

  lemma ReplyKeepsName(c: Client, reply: Reply)
    ensures OnReply(c, reply).fileName == c.fileName
  {
  }

  lemma ReceiveFitsLine(s: System, line: string)
    requires Lockstep(s) && LineFits(s, line) && Can(s, Receive)
    ensures LineFits(Next(s, Receive), line)
  {
    ReplyMoves(s.client, s.toClient[0]);
    ReplyKeepsName(s.client, s.toClient[0]);
  }

  lemma WakeFitsLine(s: System, k: nat, line: string)
    requires Lockstep(s) && LineFits(s, line) && Can(s, Wake(k))
    ensures LineFits(Next(s, Wake(k)), line)
  {
  }

  lemma ServeFitsLine(s: System, w: World, line: string)
    requires Lockstep(s) && LineFits(s, line) && Can(s, Serve(w))
    ensures LineFits(Next(s, Serve(w)), line)
  {
    ServeSendsFirst(s, w);
    assert Next(s, Serve(w)).toServer == [];
  }

  lemma StepFitsLine(s: System, a: Action, line: string)
    requires Lockstep(s) && LineFits(s, line) && Can(s, a)
    ensures LineFits(Next(s, a), if a.Prompt? && CommandOf(a.line) != Unknown then a.line else line)
  {
    match a
    case Prompt(typed) => PromptFits(s, typed, line);
    case Receive => ReceiveFitsLine(s, line);
    case Wake(k) => WakeFitsLine(s, k, line);
    case Serve(w) => ServeFitsLine(s, w, line);
    case Finish =>
    case ReceiveSecond =>
  }

  lemma {:induction false} LineAlwaysFits(actions: seq<Action>)
    requires IsRun(actions)
    ensures LineFits(After(actions), LatestLine(actions))
  {
    if actions != [] {
      var before := actions[..|actions| - 1];
      LineAlwaysFits(before);
      AlwaysInLockstep(before);
      StepFitsLine(After(before), actions[|actions| - 1], LatestLine(before));
    }
  }

  // ----------------------------------------------------------------- the data

  lemma RetrNames(s: Session, body: string, w: World)
    ensures Granted(s, Retr, body, w) ==> Act(s, Retr, body, w).0.fileName == FirstToken(body, WHITESPACE)
  {
  }

  lemma ServeSendsData(s: System, line: string, w: World)
    requires Lockstep(s) && LineFits(s, line) && Can(s, Serve(w))
    ensures DataFits(Next(s, Serve(w)), line, w)
  {
    var command, body := s.client.sentCommand, s.toServer[0].body;
    ReplyShape(s.session, command, body, w);
    ServeSendsFirst(s, w);
    RequestIsTwoWords(line);
    WordOfWord(line);
    if command == Retr {
      RetrNames(s.session, body, w);
    }
  }

  lemma ReceiveKeepsData(s: System, line: string, w: World)
    requires Lockstep(s) && DataFits(s, line, w) && Can(s, Receive)
    ensures DataFits(Next(s, Receive), line, w)
  {
    ReplyMoves(s.client, s.toClient[0]);
  }

  lemma WakeBringsData(s: System, k: nat, line: string, w: World)
    requires Lockstep(s) && DataFits(s, line, w) && Can(s, Wake(k))
    ensures DataFits(Next(s, Wake(k)), line, w)
  {
  }

  lemma OthersKeepData(s: System, a: Action, line: string, line': string, w: World)
    requires Lockstep(s) && DataFits(s, line, w) && Can(s, a) && (a.Finish? || a.ReceiveSecond? || a.Prompt?)
    requires !a.Prompt? ==> line' == line
    ensures DataFits(Next(s, a), line', w)
  {
  }

  lemma StepKeepsData(s: System, a: Action, line: string, w: World)
    requires Lockstep(s) && LineFits(s, line) && DataFits(s, line, w) && Can(s, a)
    ensures DataFits(Next(s, a), if a.Prompt? && CommandOf(a.line) != Unknown then a.line else line,
                     if a.Serve? then a.world else w)
  {
    match a
    case Serve(w') => ServeSendsData(s, line, w');
    case Receive => ReceiveKeepsData(s, line, w);
    case Wake(k) => WakeBringsData(s, k, line, w);
    case Prompt(typed) => OthersKeepData(s, a, line, if CommandOf(typed) != Unknown then typed else line, w);
    case _ => OthersKeepData(s, a, line, line, w);
  }

  /** In every run what is on its way, and then what the client holds, answers the
      client's own latest command as the server found things when it served it. */
  lemma {:induction false} DataArrives(actions: seq<Action>)
    requires IsRun(actions)
    ensures DataFits(After(actions), LatestLine(actions), LatestWorld(actions))
  {
    if actions != [] {
      var before := actions[..|actions| - 1];
      DataArrives(before);
      LineAlwaysFits(before);
      AlwaysInLockstep(before);
      StepKeepsData(After(before), actions[|actions| - 1], LatestLine(before), LatestWorld(before));
    }
  }

  /** The file the latest line asks for: in the directory that the granted CWDs
      have made of "./", under the line's second word. */
  function FileAsked(actions: seq<Action>): string {
    PathOf(ServedInputs(actions)) + SecondWord(LatestLine(actions))
  }

  /** What a client with its data has of file `f`. */
  ghost predicate HasFileIff(c: Client, f: seq<char>, residue: seq<char>) {
    c.serverData == Some(f) <==>
    '\0' !in f && |f| < MAX_BUFFER_SIZE && (|f| < |residue| ==> residue[|f|] == '\0')
  }

  /** What it shows of a listing. */
  ghost predicate ShowsNamesIff(c: Client, names: seq<string>) {
    c.serverData.Some? && Tokens(c.serverData.value, BAR_OR_SPACE) == names <==>
    (forall n | n in names :: Listable(n)) && Length(names) + |names| < MAX_BUFFER_SIZE
  }

  /** End to end: a client that has received what it asked for has the file that
      its line and the directory name, as the server found it, if and only if the
      file holds no terminator, leaves room for one and has one behind it; and it
      shows the server's names, all of them and in order, if and only if each can
      be listed and they fit. */
  lemma ClientGetsWhatServerHad(actions: seq<Action>)
    requires IsRun(actions) && HasData(After(actions).client)
    ensures var c, w := After(actions).client, LatestWorld(actions);
            && (c.sentCommand == Retr || c.sentCommand == Nlst)
            && (c.sentCommand == Retr && FileAsked(actions) in w.files ==>
                  HasFileIff(c, w.files[FileAsked(actions)], w.residue))
            && (c.sentCommand == Nlst ==> ShowsNamesIff(c, w.listing))
  {
    var s, w := After(actions), LatestWorld(actions);
    AlwaysInLockstep(actions);
    DataArrives(actions);
    SessionIsRun(actions);
    StateByHistory(ServedInputs(actions));
    if s.client.sentCommand == Retr && FileAsked(actions) in w.files {
      FileArrivesIff(w.files[FileAsked(actions)], w.residue);
    }
    ListingArrivesIff(w.listing);
  }

  /** The file is written under the second word of the line that asked for it, and
      the suffix. */
  lemma WrittenUnderItsName(actions: seq<Action>)
    requires IsRun(actions) && HasData(After(actions).client) && After(actions).client.sentCommand == Retr
    ensures CommandOf(LatestLine(actions)) == Retr
    ensures After(actions).client.fileName == SecondWord(LatestLine(actions)) + "fromServer"
  {
    LineAlwaysFits(actions);
  }
}
