/** The FTP server's answers told from its history alone: what each request of a
    run is answered, and what state it leaves, by the requests and replies before
    it. The name and the password are those of the server's only account. */
module FtpHistory {
  import opened Text
  import opened HostPort
  import opened FtpSession
  import opened FtpRuns

  /** A user name was accepted since the last QUIT. */
  ghost predicate NameGiven(tr: seq<Done>) {
    exists i :: UserAt(tr, i)
  }

  /** ... and a password after it. */
  ghost predicate LoggedOnSince(tr: seq<Done>) {
    exists i, j :: LoginAt(tr, i, j)
  }

  /** Logged in, with no mode open. */
  ghost predicate AtLeisure(tr: seq<Done>) {
    LoggedOnSince(tr) && !ModeOpen(tr)
  }

  /** Whether the latest of `inputs` was served, and answered `status` at last. */
  predicate Answered(inputs: seq<Input>, command: Command, status: int)
    requires inputs != []
  {
    var s := Run(inputs[..|inputs| - 1]);
    !s.stuck && DoneBy(s, inputs[|inputs| - 1]) == Done(command, status)
  }

  /** "./" followed by the first words of the CWD requests answered 226. */
  function PathOf(inputs: seq<Input>): string {
    if inputs == [] then "./"
    else
      PathOf(inputs[..|inputs| - 1]) +
      if Answered(inputs, Cwd, 226) then FirstToken(inputs[|inputs| - 1].req.body, WHITESPACE) else ""
  }

  /** The latest TYPE answered 200 asked for binary. */
  predicate BinaryAsked(inputs: seq<Input>) {
    inputs != [] &&
    if Answered(inputs, Type, 200) then inputs[|inputs| - 1].req.body == "i" || inputs[|inputs| - 1].req.body == "I"
    else BinaryAsked(inputs[..|inputs| - 1])
  }

  /** The number of passive ports taken from the table. */
  function PassivesTaken(inputs: seq<Input>): nat {
    if inputs == [] then 0
    else
      PassivesTaken(inputs[..|inputs| - 1]) +
      if Answered(inputs, Pasv, 227) || Answered(inputs, Pasv, 500) then 1 else 0
  }

  // ------------------------------------------------------ the state by history

  predicate IsBinary(body: string) {
    body == "i" || body == "I"
  }

  predicate IsAscii(body: string) {
    body == "a" || body == "A"
  }

  lemma TypeLetters(body: string)
    requires |body| == 1
    ensures LowerChar(body[0]) == 'i' <==> IsBinary(body)
    ensures LowerChar(body[0]) == 'a' <==> IsAscii(body)
  {
    assert body == [body[0]];
  }

  lemma StepMovesPath(s: Session, command: Command, body: string, w: World)
    ensures Act(s, command, body, w).0.relativePath ==
            s.relativePath +
            if FinalStatus(s, command, body, w) == Done(Cwd, 226) then FirstToken(body, WHITESPACE) else ""
  {
    assert s.relativePath + "" == s.relativePath;
  }

  lemma StepSetsMode(s: Session, command: Command, body: string, w: World)
    ensures Act(s, command, body, w).0.asciiMode ==
            if FinalStatus(s, command, body, w) == Done(Type, 200) then !IsBinary(body) else s.asciiMode
  {
    if command == Type && |body| == 1 {
      TypeLetters(body);
    }
  }

  lemma StepTakesPort(s: Session, command: Command, body: string, w: World)
    ensures Act(s, command, body, w).0.portIdx ==
            s.portIdx +
            if FinalStatus(s, command, body, w) in {Done(Pasv, 227), Done(Pasv, 500)} then 1 else 0
  {
  }

  /** Path, transfer type and place in the port table, over every run. */
  lemma {:induction false} StateByHistory(inputs: seq<Input>)
    ensures Run(inputs).relativePath == PathOf(inputs)
    ensures !Run(inputs).asciiMode <==> BinaryAsked(inputs)
    ensures Run(inputs).portIdx == PassivesTaken(inputs)
  {
    if inputs != [] {
      var before, x := inputs[..|inputs| - 1], inputs[|inputs| - 1];
      var s, command := Run(before), Interpret(x.req.command);
      StateByHistory(before);
      assert PathOf(before) + "" == PathOf(before);
      StepMovesPath(s, command, x.req.body, x.world);
      StepSetsMode(s, command, x.req.body, x.world);
      StepTakesPort(s, command, x.req.body, x.world);
    }
  }

  // ---------------------------------------------------- the answers by history

  /** The first reply due to a request after `inputs`, by what they were answered. */
  ghost function Due(inputs: seq<Input>, command: Command, body: string, w: World): Reply {
    var tr := Transcript(inputs);
    var word := FirstToken(body, WHITESPACE);
    match command
    case User =>
      if NameGiven(tr) then Reply(400, UserGiven)
      else if body == "auaicn" then Reply(331, PasswordRequired)
      else Reply(400, WrongUser)
    case Pass =>
      if !NameGiven(tr) then Reply(400, EnterUser)
      else if LoggedOnSince(tr) then Reply(200, AlreadyLoggedIn)
      else if body == "thislove1!" then Reply(230, LoggedOn)
      else Reply(400, WrongPassword)
    case Nlst => if ModeOpen(tr) then Reply(150, NoText) else Reply(401, SelectModeFirst)
    case Retr =>
      if !ModeOpen(tr) then Reply(401, SelectModeFirst)
      else if forall i | 0 <= i < |w.listing| :: w.listing[i] == word then Reply(404, FailedOpening(word))
      else Reply(150, NoText)
    case Cwd =>
      if !AtLeisure(tr) then Reply(401, NotAuthorized)
      else if forall i | 0 <= i < |w.listing| :: w.listing[i] == word then Reply(500, DirectoryFailed(PathOf(inputs)))
      else Reply(226, DirectoryChanged(PathOf(inputs) + word))
    case Quit => Reply(221, Goodbye)
    case Type =>
      if !AtLeisure(tr) then Reply(401, NotAuthorized)
      else if |body| != 1 then Reply(401, TypeTooLong(body))
      else if IsBinary(body) then Reply(200, TypeBinary(body))
      else if IsAscii(body) then Reply(200, TypeAscii(body))
      else Reply(401, TypeInvalid(body))
    case Pasv =>
      if !AtLeisure(tr) then Reply(401, NotAuthorized)
      else if w.threadFails then Reply(500, InternalError)
      else Reply(227, EnteringPassive(TableEntry(PassivesTaken(inputs), w)))
    case Port =>
      if !AtLeisure(tr) then Reply(401, NotAuthorized)
      else if !ShortFields(Tokens(body, COMMA_OR_SPACE)) then Reply(400, InvalidPort)
      else if w.threadFails then Reply(500, InternalError)
      else Reply(200, PortSuccessful(PortOf(Tokens(body, COMMA_OR_SPACE))))
    case Unknown => Reply(404, UnknownCommand)
  }

  lemma LoginDue(inputs: seq<Input>, command: Command, body: string, w: World)
    requires command == User || command == Pass || command == Quit || command == Unknown
    requires Explains(Transcript(inputs), Run(inputs).auth)
    ensures Act(Run(inputs), command, body, w).1 == [Due(inputs, command, body, w)]
  {
  }

  lemma DataDue(inputs: seq<Input>, command: Command, body: string, w: World)
    requires command == Nlst || command == Retr
    requires Explains(Transcript(inputs), Run(inputs).auth)
    ensures Act(Run(inputs), command, body, w).1[0] == Due(inputs, command, body, w)
  {
  }

  lemma SettingDue(inputs: seq<Input>, command: Command, body: string, w: World)
    requires command == Cwd || command == Type
    requires Explains(Transcript(inputs), Run(inputs).auth)
    requires Run(inputs).relativePath == PathOf(inputs)
    ensures Act(Run(inputs), command, body, w).1 == [Due(inputs, command, body, w)]
  {
    if command == Type && |body| == 1 {
      TypeLetters(body);
    }
  }

  lemma ModeDue(inputs: seq<Input>, command: Command, body: string, w: World)
    requires command == Pasv || command == Port
    requires Explains(Transcript(inputs), Run(inputs).auth)
    requires Run(inputs).portIdx == PassivesTaken(inputs)
    ensures Act(Run(inputs), command, body, w).1 == [Due(inputs, command, body, w)]
  {
  }

  /** Every request of every run is answered by its history: this is the first
      reply, and the only one unless it announces a transfer. */
  lemma AnsweredByHistory(inputs: seq<Input>, command: Command, body: string, w: World)
    ensures var replies := Act(Run(inputs), command, body, w).1;
            && replies[0] == Due(inputs, command, body, w)
            && (replies[0].status != 150 ==> |replies| == 1)
            && (|replies| == 2 ==> replies[1] == Reply(226, Transferred(
                   if command == Nlst then PathOf(inputs) else FirstToken(body, WHITESPACE))))
  {
    TranscriptExplains(inputs);
    StateByHistory(inputs);
    match command
    case Nlst => DataDue(inputs, command, body, w);
    case Retr => DataDue(inputs, command, body, w);
    case Cwd => SettingDue(inputs, command, body, w);
    case Type => SettingDue(inputs, command, body, w);
    case Pasv => ModeDue(inputs, command, body, w);
    case Port => ModeDue(inputs, command, body, w);
    case _ => LoginDue(inputs, command, body, w);
  }

  // ---------------------------------------------------------- who was let in

  /** Until the server is stuck every input has its place in the transcript. */
  lemma {:induction false} TranscriptPlaces(inputs: seq<Input>, n: nat)
    requires !Run(inputs).stuck && n < |inputs|
    ensures !Run(inputs[..n]).stuck && |Transcript(inputs)| == |inputs|
    ensures Transcript(inputs)[n] == DoneBy(Run(inputs[..n]), inputs[n])
    decreases |inputs|
  {
    var before := inputs[..|inputs| - 1];
    if n < |before| {
      TranscriptPlaces(before, n);
      assert before[..n] == inputs[..n];
    } else {
      assert inputs[..n] == before;
      if n > 0 {
        TranscriptPlaces(before, n - 1);
      }
    }
  }

  /** `x` gives the account's name, or its password. */
  predicate GivesName(x: Input) {
    Interpret(x.req.command) == User && x.req.body == "auaicn"
  }

  predicate GivesPassword(x: Input) {
    Interpret(x.req.command) == Pass && x.req.body == "thislove1!"
  }

  lemma AcceptedMeansRight(s: Session, x: Input)
    ensures DoneBy(s, x) == Done(User, 331) ==> GivesName(x)
    ensures DoneBy(s, x) == Done(Pass, 230) ==> GivesPassword(x)
  {
  }

  /** Every transfer granted in a run comes after a USER with the account's name,
      a PASS with its password and an accepted PASV or PORT, in that order. */
  lemma TransfersAreAuthorized(inputs: seq<Input>, n: nat)
    requires n < |inputs| && !Run(inputs[..n]).stuck
    requires Granted(Run(inputs[..n]), Interpret(inputs[n].req.command), inputs[n].req.body, inputs[n].world)
    ensures exists i, j, k ::
              && 0 <= i < j < k < n && GivesName(inputs[i]) && GivesPassword(inputs[j])
              && IsSelection(DoneBy(Run(inputs[..k]), inputs[k]))
  {
    var before := inputs[..n];
    EveryTransferIsPreceded(inputs, n);
    var i, j, k :| ModeAt(Transcript(before), i, j, k);
    if n > 0 {
      TranscriptPlaces(before, 0);
    }
    TranscriptPlaces(before, i);
    TranscriptPlaces(before, j);
    TranscriptPlaces(before, k);
    AcceptedMeansRight(Run(before[..i]), before[i]);
    AcceptedMeansRight(Run(before[..j]), before[j]);
    assert before[..k] == inputs[..k] && before[i] == inputs[i] && before[j] == inputs[j] && before[k] == inputs[k];
  }
}
