/** Whole runs of the FTP server, whatever requests arrive: what must have
    happened before a transfer is granted, and how selections are used up. */
module FtpRuns {
  import opened Options
  import opened Text
  import opened HostPort
  import opened FtpSession

  datatype Input = Input(req: Request, world: World)

  /** A request served, with the status of its last reply. */
  datatype Done = Done(command: Command, status: int)

  /** A server that is stuck takes no more requests. */
  function Run(inputs: seq<Input>): Session {
    if inputs == [] then NEW_SESSION
    else
      var s, x := Run(inputs[..|inputs| - 1]), inputs[|inputs| - 1];
      if s.stuck then s else Execution(s, x.req, x.world).0
  }

  function DoneBy(s: Session, x: Input): Done {
    FinalStatus(s, Interpret(x.req.command), x.req.body, x.world)
  }

  function FinalStatus(s: Session, command: Command, body: string, w: World): Done {
    var replies := Act(s, command, body, w).1;
    Done(command, replies[|replies| - 1].status)
  }

  function Transcript(inputs: seq<Input>): seq<Done> {
    if inputs == [] then []
    else
      var before := inputs[..|inputs| - 1];
      Transcript(before) + if Run(before).stuck then [] else [DoneBy(Run(before), inputs[|inputs| - 1])]
  }

  predicate IsTransfer(d: Done) {
    (d.command == Nlst || d.command == Retr) && d.status == 226
  }

  predicate IsSelection(d: Done) {
    d == Done(Pasv, 227) || d == Done(Port, 200)
  }

  /** What the final status alone tells about the login state: where it was... */
  predicate Fits(auth: Auth, d: Done) {
    && (d == Done(User, 331) ==> auth == NotLoggedIn)
    && (d == Done(Pass, 230) ==> auth == NeedPassword)
    && (IsSelection(d) ==> auth == LoggedIn)
    && (IsTransfer(d) ==> auth == ModeSelected)
  }

  /** ... and where it is now. */
  function Follow(auth: Auth, d: Done): Auth {
    if d == Done(User, 331) then NeedPassword
    else if d == Done(Pass, 230) || IsTransfer(d) then LoggedIn
    else if IsSelection(d) then ModeSelected
    else if d.command == Quit then NotLoggedIn
    else auth
  }

  ghost predicate Tells(s: Session, command: Command, body: string, w: World) {
    var d := FinalStatus(s, command, body, w);
    d.command == command && Fits(s.auth, d) && Act(s, command, body, w).0.auth == Follow(s.auth, d)
  }

  lemma LoginTells(s: Session, command: Command, body: string, w: World)
    requires command == User || command == Pass || command == Quit || command == Type || command == Unknown
    ensures Tells(s, command, body, w)
  {
  }

  lemma DataTells(s: Session, command: Command, body: string, w: World)
    requires command == Nlst || command == Retr || command == Cwd
    ensures Tells(s, command, body, w)
  {
  }

  lemma ModeTells(s: Session, command: Command, body: string, w: World)
    requires command == Pasv || command == Port
    ensures Tells(s, command, body, w)
  {
  }

  lemma StatusTells(s: Session, command: Command, body: string, w: World)
    ensures Tells(s, command, body, w)
  {
    match command
    case Nlst => DataTells(s, command, body, w);
    case Retr => DataTells(s, command, body, w);
    case Cwd => DataTells(s, command, body, w);
    case Pasv => ModeTells(s, command, body, w);
    case Port => ModeTells(s, command, body, w);
    case _ => LoginTells(s, command, body, w);
  }

  /** The server sets about a transfer. */
  predicate Granted(s: Session, command: Command, body: string, w: World) {
    Act(s, command, body, w).1[0].status == 150
  }

  lemma ReplyShape(s: Session, command: Command, body: string, w: World)
    ensures var (s', replies) := Act(s, command, body, w);
            if Granted(s, command, body, w)
            then
              && DataThreadSucceeds(command) && s'.dataCommand == command && s.auth == ModeSelected
              && s'.waiting == AfterSignal(s.waiting, w.pick) && s'.started == s.started
              && if s.started in s'.waiting then |replies| == 1 && s'.stuck && s'.auth == ModeSelected
                 else |replies| == 2 && replies[1].status == 226 && s'.stuck == s.stuck && s'.auth == LoggedIn
            else |replies| == 1 && 200 <= replies[0].status < 600 && s'.stuck == s.stuck
  {
    match command
    case User =>
    case Pass =>
    case Nlst =>
    case Retr =>
    case Cwd =>
    case Quit =>
    case Type =>
    case Pasv =>
    case Port =>
    case Unknown =>
  }

  /** A first reply of class 1 is sent exactly for a transfer, for which the woken
      data thread never finds a command it cannot serve; and the second reply
      follows exactly when the latest data thread is not left waiting. */
  lemma SecondReplyIffLatestWoken(s: Session, command: Command, body: string, w: World)
    requires !s.stuck
    ensures var (s', replies) := Act(s, command, body, w);
            && (ExtractClass(replies[0].status) == 1 <==> Granted(s, command, body, w))
            && (Granted(s, command, body, w) ==> DataThreadSucceeds(s'.dataCommand) && s'.dataCommand == command)
            && (|replies| == 2 <==>
                Granted(s, command, body, w) && s.started !in AfterSignal(s.waiting, w.pick))
            && (|replies| == 2 ==> replies[1].status == 226)
            && (s'.stuck <==> Granted(s, command, body, w) && |replies| == 1)
  {
    ReplyShape(s, command, body, w);
  }

  // ----------------------------------------------------------- conservation

  function Count(tr: seq<Done>, p: Done -> bool): nat {
    if tr == [] then 0 else Count(tr[..|tr| - 1], p) + if p(tr[|tr| - 1]) then 1 else 0
  }

  /** How often QUIT arrived while a mode was selected. */
  function Abandoned(inputs: seq<Input>): nat {
    if inputs == [] then 0
    else
      var before, x := inputs[..|inputs| - 1], inputs[|inputs| - 1];
      var s := Run(before);
      Abandoned(before) + if !s.stuck && s.auth == ModeSelected && Interpret(x.req.command) == Quit then 1 else 0
  }

  /** Every accepted PASV or PORT is used by exactly one transfer, abandoned by
      QUIT, or still open. */
  lemma {:induction false} SelectionsAreConserved(inputs: seq<Input>)
    ensures Count(Transcript(inputs), IsSelection) ==
            Count(Transcript(inputs), IsTransfer) + Abandoned(inputs)
            + if Run(inputs).auth == ModeSelected then 1 else 0
  {
    if inputs != [] {
      var before, x := inputs[..|inputs| - 1], inputs[|inputs| - 1];
      SelectionsAreConserved(before);
      assert Transcript(before) + [] == Transcript(before);
      StatusTells(Run(before), Interpret(x.req.command), x.req.body, x.world);
      CountOneMore(Transcript(before), DoneBy(Run(before), x), IsSelection);
      CountOneMore(Transcript(before), DoneBy(Run(before), x), IsTransfer);
    }
  }

  lemma CountOneMore(tr: seq<Done>, d: Done, p: Done -> bool)
    ensures Count(tr + [d], p) == Count(tr, p) + if p(d) then 1 else 0
  {
    assert (tr + [d])[..|tr|] == tr;
  }

  // ------------------------------------------------------------ trace safety

  /** The user name was accepted at i, and no QUIT came since. */
  ghost predicate UserAt(tr: seq<Done>, i: int) {
    0 <= i < |tr| && tr[i] == Done(User, 331) && forall n | i < n < |tr| :: tr[n].command != Quit
  }

  /** ... and the password was accepted at j after it. */
  ghost predicate LoginAt(tr: seq<Done>, i: int, j: int) {
    UserAt(tr, i) && i < j < |tr| && tr[j] == Done(Pass, 230)
  }

  /** ... and a mode was selected at k after that, not used by a transfer yet. */
  ghost predicate ModeAt(tr: seq<Done>, i: int, j: int, k: int) {
    && LoginAt(tr, i, j) && j < k < |tr| && IsSelection(tr[k])
    && forall n | k < n < |tr| :: !IsTransfer(tr[n])
  }

  /** Some user name, password and mode were accepted in that order, with no QUIT
      since the first and no transfer since the last. */
  ghost predicate ModeOpen(tr: seq<Done>) {
    exists i, j, k :: ModeAt(tr, i, j, k)
  }

  ghost predicate Explains(tr: seq<Done>, auth: Auth) {
    && (auth != NotLoggedIn <==> exists i :: UserAt(tr, i))
    && (auth == LoggedIn || auth == ModeSelected <==> exists i, j :: LoginAt(tr, i, j))
    && (auth == ModeSelected <==> ModeOpen(tr))
  }

  lemma UserAtMore(tr: seq<Done>, d: Done, i: int)
    ensures UserAt(tr + [d], i) <==> (UserAt(tr, i) && d.command != Quit) || (i == |tr| && d == Done(User, 331))
  {
    var all := tr + [d];
    assert forall n | 0 <= n < |tr| :: all[n] == tr[n];
    if UserAt(all, i) && i < |tr| {
      assert all[|tr|].command != Quit;
      assert forall n | i < n < |tr| :: all[n].command != Quit;
    }
  }

  lemma LoginAtMore(tr: seq<Done>, d: Done, i: int, j: int)
    ensures LoginAt(tr + [d], i, j) <==>
            d.command != Quit && (LoginAt(tr, i, j) || (UserAt(tr, i) && j == |tr| && d == Done(Pass, 230)))
  {
    UserAtMore(tr, d, i);
  }

  lemma ModeAtMore(tr: seq<Done>, d: Done, i: int, j: int, k: int)
    ensures ModeAt(tr + [d], i, j, k) <==>
            && d.command != Quit
            && ((ModeAt(tr, i, j, k) && !IsTransfer(d)) || (LoginAt(tr, i, j) && k == |tr| && IsSelection(d)))
  {
    var all := tr + [d];
    LoginAtMore(tr, d, i, j);
    assert forall n | 0 <= n < |tr| :: all[n] == tr[n];
    if ModeAt(all, i, j, k) && k < |tr| {
      assert !IsTransfer(all[|tr|]);
      assert forall n | k < n < |tr| :: !IsTransfer(all[n]);
    }
  }

  lemma StepExplains(tr: seq<Done>, auth: Auth, d: Done)
    requires Explains(tr, auth) && Fits(auth, d)
    ensures Explains(tr + [d], Follow(auth, d))
  {
    var all := tr + [d];
    forall i ensures UserAt(all, i) <==> (UserAt(tr, i) && d.command != Quit) || (i == |tr| && d == Done(User, 331)) {
      UserAtMore(tr, d, i);
    }
    forall i, j
      ensures LoginAt(all, i, j) <==>
              d.command != Quit && (LoginAt(tr, i, j) || (UserAt(tr, i) && j == |tr| && d == Done(Pass, 230)))
    {
      LoginAtMore(tr, d, i, j);
    }
    forall i, j, k
      ensures ModeAt(all, i, j, k) <==>
              && d.command != Quit
              && ((ModeAt(tr, i, j, k) && !IsTransfer(d)) || (LoginAt(tr, i, j) && k == |tr| && IsSelection(d)))
    {
      ModeAtMore(tr, d, i, j, k);
    }
    if d == Done(User, 331) {
      assert UserAt(all, |tr|);
    }
    if d == Done(Pass, 230) {
      var i :| UserAt(tr, i);
      assert LoginAt(all, i, |tr|);
    }
    if IsSelection(d) {
      var i, j :| LoginAt(tr, i, j);
      assert ModeAt(all, i, j, |tr|);
    }
  }

  lemma {:induction false} TranscriptExplains(inputs: seq<Input>)
    ensures Explains(Transcript(inputs), Run(inputs).auth)
  {
    if inputs != [] {
      var before, x := inputs[..|inputs| - 1], inputs[|inputs| - 1];
      TranscriptExplains(before);
      assert Transcript(before) + [] == Transcript(before);
      StatusTells(Run(before), Interpret(x.req.command), x.req.body, x.world);
      StepExplains(Transcript(before), Run(before).auth, DoneBy(Run(before), x));
    }
  }

  lemma GrantedInModeSelected(s: Session, command: Command, body: string, w: World)
    requires command == Nlst || (command == Retr && ValidDirectoryEntry(w.listing, FirstToken(body, WHITESPACE)))
    ensures Granted(s, command, body, w) <==> s.auth == ModeSelected
  {
  }

  /** A listing, or the retrieval of a file the entry test lets through, is
      granted if and only if since the last QUIT a user name, then a password,
      then a mode were accepted and no transfer has used that mode. */
  lemma TransferIffModeSelected(inputs: seq<Input>, command: Command, body: string, w: World)
    requires command == Nlst || (command == Retr && ValidDirectoryEntry(w.listing, FirstToken(body, WHITESPACE)))
    ensures Granted(Run(inputs), command, body, w) <==> ModeOpen(Transcript(inputs))
  {
    TranscriptExplains(inputs);
    GrantedInModeSelected(Run(inputs), command, body, w);
  }

  /** In any run, every transfer granted, whether it closes or not, was preceded
      in that order by a user name, a password and a mode of its own. */
  lemma EveryTransferIsPreceded(inputs: seq<Input>, n: nat)
    requires n < |inputs|
    requires Granted(Run(inputs[..n]), Interpret(inputs[n].req.command), inputs[n].req.body, inputs[n].world)
    ensures ModeOpen(Transcript(inputs[..n]))
  {
    var x := inputs[n];
    TranscriptExplains(inputs[..n]);
    ReplyShape(Run(inputs[..n]), Interpret(x.req.command), x.req.body, x.world);
  }

  // -------------------------------------------------------- the data threads

  ghost predicate Ascending(s: seq<nat>) {
    forall i, j | 0 <= i < j < |s| :: s[i] < s[j]
  }

  /** One thread waits for the open mode, the latest started, and one for every
      mode abandoned before. */
  ghost predicate ThreadsCounted(s: Session, abandoned: nat) {
    && Ascending(s.waiting) && (forall i | 0 <= i < |s.waiting| :: s.waiting[i] <= s.started)
    && (s.auth == ModeSelected ==> s.waiting != [] && s.waiting[|s.waiting| - 1] == s.started)
    && |s.waiting| == abandoned + if s.auth == ModeSelected then 1 else 0
  }

  /** The latest thread is woken, and not left waiting, exactly when the last one
      of those that wait is picked. */
  lemma LatestWokenIff(s: Session, abandoned: nat, pick: nat)
    requires ThreadsCounted(s, abandoned) && s.auth == ModeSelected
    ensures s.started !in AfterSignal(s.waiting, pick) <==> pick % |s.waiting| == |s.waiting| - 1
    ensures s.started !in AfterSignal(s.waiting, pick) ==> AfterSignal(s.waiting, pick) == s.waiting[..|s.waiting| - 1]
  {
    var n := |s.waiting|;
    var i, left := pick % n, AfterSignal(s.waiting, pick);
    if i < n - 1 {
      assert left[n - 2] == s.waiting[n - 1];
    } else {
      assert left == s.waiting[..n - 1];
    }
  }

  lemma AddThreadCounts(s: Session, s': Session, abandoned: nat)
    requires ThreadsCounted(s, abandoned) && s.auth == LoggedIn && s'.auth == ModeSelected
    requires s'.started == s.started + 1 && s'.waiting == s.waiting + [s.started + 1]
    ensures ThreadsCounted(s', abandoned)
  {
  }

  /** What a request other than a granted transfer does to the threads. */
  lemma RequestsAndThreads(s: Session, command: Command, body: string, w: World)
    ensures var s' := Act(s, command, body, w).0;
            Granted(s, command, body, w) ||
            (if s'.waiting == s.waiting then
               && s'.started == s.started
               && (s'.auth == ModeSelected <==> s.auth == ModeSelected && command != Quit)
             else
               && s.auth == LoggedIn && s'.auth == ModeSelected
               && s'.started == s.started + 1 && s'.waiting == s.waiting + [s.started + 1])
  {
    match command
    case User =>
    case Pass =>
    case Nlst =>
    case Retr =>
    case Cwd =>
    case Quit =>
    case Type =>
    case Pasv => assert |s.waiting + [s.started + 1]| != |s.waiting|;
    case Port => assert |s.waiting + [s.started + 1]| != |s.waiting|;
    case Unknown =>
  }

  lemma StepCountsThreads(s: Session, command: Command, body: string, w: World, abandoned: nat)
    requires ThreadsCounted(s, abandoned) && !s.stuck
    ensures var s' := Act(s, command, body, w).0;
            !s'.stuck ==> ThreadsCounted(s', abandoned + if s.auth == ModeSelected && command == Quit then 1 else 0)
  {
    var s' := Act(s, command, body, w).0;
    ReplyShape(s, command, body, w);
    RequestsAndThreads(s, command, body, w);
    if Granted(s, command, body, w) {
      LatestWokenIff(s, abandoned, w.pick);
    } else if s'.waiting != s.waiting {
      AddThreadCounts(s, s', abandoned);
    }
  }

  lemma {:induction false} AbandonedThreadsWait(inputs: seq<Input>)
    requires !Run(inputs).stuck
    ensures ThreadsCounted(Run(inputs), Abandoned(inputs))
  {
    if inputs != [] {
      var before, x := inputs[..|inputs| - 1], inputs[|inputs| - 1];
      AbandonedThreadsWait(before);
      StepCountsThreads(Run(before), Interpret(x.req.command), x.req.body, x.world, Abandoned(before));
    }
  }

  lemma ClosesIffLast(s: Session, abandoned: nat, command: Command, body: string, w: World)
    requires ThreadsCounted(s, abandoned) && !s.stuck && Granted(s, command, body, w)
    ensures IsTransfer(FinalStatus(s, command, body, w)) <==> w.pick % (abandoned + 1) == abandoned
  {
    ReplyShape(s, command, body, w);
    LatestWokenIff(s, abandoned, w.pick);
  }

  lemma PickDoesNotGrant(s: Session, command: Command, body: string, w: World, pick: nat)
    ensures Granted(s, command, body, w.(pick := pick)) <==> Granted(s, command, body, w)
  {
  }

  /** A granted transfer closes with 226 if the thread woken is the latest of those
      that wait, one for every mode dropped by QUIT and one for the open one; so
      it closes whichever is woken if and only if no mode was ever dropped. */
  lemma ClosesIffNothingAbandoned(inputs: seq<Input>, command: Command, body: string, w: World)
    requires !Run(inputs).stuck && Granted(Run(inputs), command, body, w)
    ensures IsTransfer(FinalStatus(Run(inputs), command, body, w)) <==>
            w.pick % (Abandoned(inputs) + 1) == Abandoned(inputs)
    ensures (forall pick :: IsTransfer(FinalStatus(Run(inputs), command, body, w.(pick := pick)))) <==>
            Abandoned(inputs) == 0
  {
    var s, n := Run(inputs), Abandoned(inputs);
    AbandonedThreadsWait(inputs);
    forall pick: nat
      ensures IsTransfer(FinalStatus(s, command, body, w.(pick := pick))) <==> pick % (n + 1) == n
    {
      PickDoesNotGrant(s, command, body, w, pick);
      ClosesIffLast(s, n, command, body, w.(pick := pick));
    }
    assert w.(pick := w.pick) == w;
    if n > 0 {
      assert !IsTransfer(FinalStatus(s, command, body, w.(pick := 0)));
    }
  }

  // ---------------------------------------------------------- the data ports

  /** Passive ports are taken from the table in order, and the client reads each
      of them from the reply. */
  lemma PassivePortsInStep(s: Session, body: string, w: World)
    requires FinalStatus(s, Pasv, body, w) == Done(Pasv, 227)
    ensures var (s', replies) := Act(s, Pasv, body, w);
            && s'.portIdx == s.portIdx + 1
            && (s.portIdx < |PORTS| ==>
                  && s'.dataPort == PORTS[s.portIdx]
                  && ClientPassivePort(Render(replies[0].notice)) == Some(s'.dataPort))
  {
    if s.portIdx < |PORTS| {
      PassivePortsAgree(s.portIdx);
    }
  }

  /** After every accepted PORT both sides have the same number. */
  lemma ActivePortsInStep(s: Session, body: string, w: World)
    requires FinalStatus(s, Port, body, w) == Done(Port, 200)
    ensures var (s', replies) := Act(s, Port, body, w); ClientActivePort(Render(replies[0].notice)) == Some(s'.dataPort)
  {
    AcceptedPortReply(s, body, w);
    ActivePortsAgree(Act(s, Port, body, w).0.dataPort);
  }

  lemma AcceptedPortReply(s: Session, body: string, w: World)
    requires FinalStatus(s, Port, body, w) == Done(Port, 200)
    ensures var (s', replies) := Act(s, Port, body, w);
            ServerPort(body) == Some(s'.dataPort) && replies == [Reply(200, PortSuccessful(s'.dataPort))]
  {
  }
}
