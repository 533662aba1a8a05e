/** What a mode dropped by QUIT does to a later transfer: a session of the FTP
    server in which the data thread of the dropped mode is woken for it. */
module FtpAbandoned {
  import opened FtpSession
  import opened FtpRuns

  lemma UserWord()
    ensures Interpret("user") == User
  {
    assert Lower("user") == "user";
  }

  lemma PassWord()
    ensures Interpret("pass") == Pass
  {
    assert Lower("pass") == "pass";
  }

  lemma PasvWord()
    ensures Interpret("pasv") == Pasv
  {
    assert Lower("pasv") == "pasv";
  }

  lemma NlstWord()
    ensures Interpret("nlst") == Nlst
  {
    assert Lower("nlst") == "nlst";
  }

  lemma QuitWord()
    ensures Interpret("quit") == Quit
  {
    assert Lower("quit") == "quit";
  }

  const WORLD := World([], map[], [], 0, false, 0)

  /** The server after some run that has dropped `abandoned` modes. */
  ghost predicate Reached(s: Session, abandoned: nat) {
    exists inputs :: Run(inputs) == s && Abandoned(inputs) == abandoned
  }

  lemma Served(s: Session, abandoned: nat, word: string, body: string, command: Command, s': Session)
    requires Reached(s, abandoned) && !s.stuck && Interpret(word) == command
    requires Act(s, command, body, WORLD).0 == s'
    ensures Reached(s', abandoned + if s.auth == ModeSelected && command == Quit then 1 else 0)
  {
    var inputs :| Run(inputs) == s && Abandoned(inputs) == abandoned;
    var x := Input(Request(word, body), WORLD);
    var all := inputs + [x];
    assert all[..|all| - 1] == inputs && all[|all| - 1] == x;
    assert Run(all) == s';
  }

  /** A mode is open on the next port of the table. */
  function Selected(s: Session): Session {
    s.(auth := ModeSelected, portIdx := s.portIdx + 1, dataPort := TableEntry(s.portIdx, WORLD),
       started := s.started + 1, waiting := s.waiting + [s.started + 1])
  }

  lemma GivesName(s: Session, abandoned: nat)
    requires Reached(s, abandoned) && !s.stuck && s.auth == NotLoggedIn
    ensures Reached(s.(auth := NeedPassword), abandoned)
  {
    UserWord();
    Served(s, abandoned, "user", USER_ID, User, s.(auth := NeedPassword));
  }

  lemma GivesPassword(s: Session, abandoned: nat)
    requires Reached(s, abandoned) && !s.stuck && s.auth == NeedPassword
    ensures Reached(s.(auth := LoggedIn), abandoned)
  {
    PassWord();
    Served(s, abandoned, "pass", USER_PASSWORD, Pass, s.(auth := LoggedIn));
  }

  lemma PasvSelects(s: Session)
    requires s.auth == LoggedIn
    ensures Act(s, Pasv, "", WORLD).0 == Selected(s)
  {
  }

  lemma TakesPortBy(s: Session, abandoned: nat, word: string)
    requires Reached(s, abandoned) && !s.stuck && s.auth == LoggedIn && Interpret(word) == Pasv
    ensures Reached(Selected(s), abandoned)
  {
    PasvSelects(s);
    Served(s, abandoned, word, "", Pasv, Selected(s));
  }

  lemma TakesPort(s: Session, abandoned: nat)
    requires Reached(s, abandoned) && !s.stuck && s.auth == LoggedIn
    ensures Reached(Selected(s), abandoned)
  {
    PasvWord();
    TakesPortBy(s, abandoned, "pasv");
  }

  lemma LogsIn(s: Session, abandoned: nat)
    requires Reached(s, abandoned) && !s.stuck && s.auth == NotLoggedIn
    ensures Reached(s.(auth := LoggedIn), abandoned)
  {
    GivesName(s, abandoned);
    GivesPassword(s.(auth := NeedPassword), abandoned);
  }

  lemma SelectedAnyway(s: Session)
    ensures Selected(s.(auth := LoggedIn)) == Selected(s)
  {
  }

  lemma SelectsMode(s: Session, abandoned: nat)
    requires Reached(s, abandoned) && !s.stuck && s.auth == NotLoggedIn
    ensures Reached(Selected(s), abandoned)
  {
    LogsIn(s, abandoned);
    TakesPort(s.(auth := LoggedIn), abandoned);
    SelectedAnyway(s);
  }

  lemma DropsMode(s: Session, abandoned: nat)
    requires Reached(s, abandoned) && !s.stuck && s.auth == ModeSelected
    ensures Reached(s.(auth := NotLoggedIn), abandoned + 1)
  {
    QuitWord();
    Served(s, abandoned, "quit", "", Quit, s.(auth := NotLoggedIn));
  }

  /** One mode is open and one was dropped; both threads are waiting. */
  function TwoWaiting(): Session {
    Selected(Selected(NEW_SESSION).(auth := NotLoggedIn))
  }

  lemma TwoWaitingReached()
    ensures Reached(TwoWaiting(), 1)
  {
    assert Run([]) == NEW_SESSION && Abandoned([]) == 0;
    SelectsMode(NEW_SESSION, 0);
    DropsMode(Selected(NEW_SESSION), 0);
    SelectsMode(Selected(NEW_SESSION).(auth := NotLoggedIn), 1);
  }

  lemma FirstIsWoken()
    ensures Act(TwoWaiting(), Nlst, "", WORLD).1 == [Reply(150, NoText)]
    ensures Act(TwoWaiting(), Nlst, "", WORLD).0.stuck && Act(TwoWaiting(), Nlst, "", WORLD).0.waiting == [2]
  {
    assert TwoWaiting().waiting == [1, 2] && AfterSignal([1, 2], 0) == [2];
  }

  /** User name, password, PASV, QUIT, the same three again, and NLST: the signal
      wakes the thread of the first PASV, the server joins that of the second,
      and the reply of class 1 is never followed by another. */
  lemma AbandonedThreadHangsServer()
    ensures exists inputs ::
              && !Run(inputs).stuck && Abandoned(inputs) == 1
              && Act(Run(inputs), Nlst, "", WORLD).1 == [Reply(150, NoText)]
              && Act(Run(inputs), Nlst, "", WORLD).0.stuck
  {
    TwoWaitingReached();
    FirstIsWoken();
  }
}
