/** The FTP server's session: one function from state and request to state and
    replies, and the server that computes it step by step. */
module FtpSession {
  import opened Options
  import opened Text
  import opened StrtokModel
  import opened HostPort
  import opened Listing
  import opened DataMessage

  datatype Command = User | Pass | Nlst | Pasv | Retr | Cwd | Quit | Type | Port | Unknown

  datatype Auth = NotLoggedIn | NeedPassword | LoggedIn | ModeSelected

  datatype Request = Request(command: string, body: string)

  /** What a reply says; Render gives the words on the wire. */
  datatype Notice =
    | NoText
    | ServerReady
    | PasswordRequired
    | WrongUser
    | UserGiven
    | EnterUser
    | LoggedOn
    | WrongPassword
    | AlreadyLoggedIn
    | SelectModeFirst
    | NotAuthorized
    | InternalError
    | TransferFailed
    | Transferred(subject: string)
    | FailedOpening(name: string)
    | DirectoryFailed(path: string)
    | DirectoryChanged(path: string)
    | Goodbye
    | TypeTooLong(given: string)
    | TypeBinary(given: string)
    | TypeAscii(given: string)
    | TypeInvalid(given: string)
    | EnteringPassive(port: int)
    | PortSuccessful(port: int)
    | InvalidPort
    | UnknownCommand

  datatype Reply = Reply(status: int, notice: Notice)

  /** The first digit of a status of three digits. */
  function ExtractClass(status: int): int {
    Quotient(status, 100)
  }

  function Render(n: Notice): string {
    match n
    case NoText => ""
    case ServerReady => "Server ready"
    case PasswordRequired => "Password required for \"" + USER_ID + "\""
    case WrongUser => "wrong username. try again"
    case UserGiven => "user id already given"
    case EnterUser => "enter user name"
    case LoggedOn => "Logged on"
    case WrongPassword => "wrong password. try again"
    case AlreadyLoggedIn => "already logined"
    case SelectModeFirst => "please select ftp mode first (active, passive)"
    case NotAuthorized => "operation not authroized. Please login first."
    case InternalError => "Internal Server Error"
    case TransferFailed => "Internal Server Error\n"
    case Transferred(subject) => "Successfully transferred " + subject + "\n"
    case FailedOpening(name) => "failed opening " + name
    case DirectoryFailed(path) => "changing directory failed. current working directory is \"" + path + "\""
    case DirectoryChanged(path) => "changed current working directory to \"" + path + "\""
    case Goodbye => "Goodbye"
    case TypeTooLong(given) => "type must be a single character \"" + given + "\" is not a single character."
    case TypeBinary(given) => "Type set to " + given + " (Binary)"
    case TypeAscii(given) => "Type set to " + given + " (Ascii)"
    case TypeInvalid(given) => "invalid file transfer type \"" + given + "\""
    case EnteringPassive(port) => PassiveReply(port)
    case PortSuccessful(port) => PortReply(port)
    case InvalidPort => "invalid port number encountered. Try Agiain"
    case UnknownCommand => "unknown command"
  }

  /** What the server finds outside itself while it serves one request: the
      entries of the current directory, the files by their paths, what the memory
      for a file's contents held before, what lies behind the end of the port
      table, whether a thread can be created, and which of the waiting threads a
      signal wakes. */
  datatype World = World(
    listing: seq<string>,
    files: map<string, seq<char>>,
    residue: seq<char>,
    strayPort: int,
    threadFails: bool,
    pick: nat)

  /** Data threads are numbered as they are started; `waiting` are those yet to be
      woken. They share one socket, so whichever is woken serves on `dataPort`,
      the port of the latest; and the latest is the one joined. `stuck` means
      that the join never returns. */
  datatype Session = Session(
    auth: Auth,
    dataCommand: Command,
    asciiMode: bool,
    portIdx: nat,
    relativePath: string,
    fileName: string,
    dataPort: int,
    waiting: seq<nat>,
    started: nat,
    stuck: bool)

  const USER_ID := "auaicn"
  const USER_PASSWORD := "thislove1!"
  const NEW_SESSION := Session(NotLoggedIn, Unknown, true, 0, "./", "", 0, [], 0, false)

  // ---------------------------------------------------------------- commands

  function LowerChar(c: char): char {
    if 'A' <= c <= 'Z' then (c as int - 'A' as int + 'a' as int) as char else c
  }

  function Lower(s: string): string {
    seq(|s|, i requires 0 <= i < |s| => LowerChar(s[i]))
  }

  method ToLowercase(inputString: array<char>)
    modifies inputString
    ensures inputString[..] == Lower(old(inputString[..]))
    ensures forall i | 0 <= i < inputString.Length ::
              if 65 <= old(inputString[i]) as int <= 90 then inputString[i] as int == old(inputString[i]) as int + 32
              else inputString[i] == old(inputString[i])
  {
    for i := 0 to inputString.Length
      invariant inputString[..i] == Lower(old(inputString[..]))[..i]
      invariant inputString[i..] == old(inputString[..])[i..]
    {
      inputString[i] := LowerChar(inputString[i]);
    }
  }

  function Named(s: string): Command {
    if s == "user" then User
    else if s == "pass" then Pass
    else if s == "nlst" then Nlst
    else if s == "pasv" then Pasv
    else if s == "retr" then Retr
    else if s == "cwd" then Cwd
    else if s == "quit" then Quit
    else if s == "type" then Type
    else if s == "port" then Port
    else Unknown
  }

  function Interpret(inputCommand: string): Command {
    Named(Lower(inputCommand))
  }

  // ---------------------------------------------------------------- requests

  /** Whether some entry differs from `name`: the comparison is the wrong way
      round. */
  predicate ValidDirectoryEntry(listing: seq<string>, name: string) {
    exists i | 0 <= i < |listing| :: listing[i] != name
  }

  /** The test agrees with membership exactly when the directory is empty, or
      holds the name and something else besides. */
  lemma EntryTestIsRightIff(listing: seq<string>, name: string)
    ensures (ValidDirectoryEntry(listing, name) <==> name in listing)
            <==> listing == [] || (name in listing && exists i | 0 <= i < |listing| :: listing[i] != name)
  {
    if listing != [] && name !in listing {
      assert listing[0] != name;
    }
  }

  /** What arrives of what the data thread sends once woken: the file at the path
      that the directory and the requested name make up, or the listing. */
  function DataSent(s: Session, w: World): Option<string> {
    match s.dataCommand
    case Retr =>
      var filePath := s.relativePath + s.fileName;
      if filePath in w.files then FileMessage(w.files[filePath], w.residue) else None
    case Nlst => ListingMessage(w.listing)
    case _ => None
  }

  /** The data thread succeeds for the two data commands only. */
  predicate DataThreadSucceeds(dataCommand: Command) {
    dataCommand == Retr || dataCommand == Nlst
  }

  /** The threads left waiting after a signal, which wakes one of them if any. */
  function AfterSignal(waiting: seq<nat>, pick: nat): seq<nat> {
    if waiting == [] then []
    else
      var i := pick % |waiting|;
      waiting[..i] + waiting[i + 1..]
  }

  /** The replies of a transfer, and the state after it. The second is sent only
      if the thread that is joined has ended. */
  function Transfer(s: Session, command: Command, subject: string, w: World): (Session, seq<Reply>) {
    var woken := s.(dataCommand := command, waiting := AfterSignal(s.waiting, w.pick));
    if s.started in woken.waiting then (woken.(stuck := true), [Reply(150, NoText)])
    else if !DataThreadSucceeds(command) then (woken, [Reply(150, NoText), Reply(500, TransferFailed)])
    else (woken.(auth := LoggedIn), [Reply(150, NoText), Reply(226, Transferred(subject))])
  }

  function SelectMode(s: Session, port: int, w: World, accepted: Reply): (Session, seq<Reply>) {
    if w.threadFails then (s, [Reply(500, InternalError)])
    else
      var k := s.started + 1;
      (s.(dataPort := port, auth := ModeSelected, started := k, waiting := s.waiting + [k]), [accepted])
  }

  function TableEntry(i: nat, w: World): int {
    if i < |PORTS| then PORTS[i] else w.strayPort
  }

  function Execution(s: Session, req: Request, w: World): (Session, seq<Reply>) {
    Act(s, Interpret(req.command), req.body, w)
  }

  function Act(s: Session, command: Command, body: string, w: World): (r: (Session, seq<Reply>))
    ensures 1 <= |r.1| <= 2
  {
    match command
    case User =>
      if s.auth != NotLoggedIn then (s, [Reply(400, UserGiven)])
      else if body == USER_ID then
        (s.(auth := NeedPassword), [Reply(331, PasswordRequired)])
      else (s, [Reply(400, WrongUser)])
    case Pass =>
      if s.auth == NotLoggedIn then (s, [Reply(400, EnterUser)])
      else if s.auth != NeedPassword then (s, [Reply(200, AlreadyLoggedIn)])
      else if body == USER_PASSWORD then (s.(auth := LoggedIn), [Reply(230, LoggedOn)])
      else (s, [Reply(400, WrongPassword)])
    case Nlst =>
      if s.auth != ModeSelected then (s, [Reply(401, SelectModeFirst)])
      else Transfer(s, Nlst, s.relativePath, w)
    case Retr =>
      var fileName := FirstToken(body, WHITESPACE);
      var asked := s.(fileName := fileName);
      if s.auth != ModeSelected then (s, [Reply(401, SelectModeFirst)])
      else if !ValidDirectoryEntry(w.listing, fileName) then (asked, [Reply(404, FailedOpening(fileName))])
      else Transfer(asked, Retr, fileName, w)
    case Cwd =>
      var dirName := FirstToken(body, WHITESPACE);
      if s.auth != LoggedIn then (s, [Reply(401, NotAuthorized)])
      else if !ValidDirectoryEntry(w.listing, dirName) then
        (s, [Reply(500, DirectoryFailed(s.relativePath))])
      else
        var path := s.relativePath + dirName;
        (s.(relativePath := path), [Reply(226, DirectoryChanged(path))])
    case Quit => (s.(auth := NotLoggedIn), [Reply(221, Goodbye)])
    case Type =>
      if s.auth != LoggedIn then (s, [Reply(401, NotAuthorized)])
      else if |body| != 1 then
        (s, [Reply(401, TypeTooLong(body))])
      else if LowerChar(body[0]) == 'i' then
        (s.(asciiMode := false), [Reply(200, TypeBinary(body))])
      else if LowerChar(body[0]) == 'a' then
        (s.(asciiMode := true), [Reply(200, TypeAscii(body))])
      else (s, [Reply(401, TypeInvalid(body))])
    case Pasv =>
      if s.auth != LoggedIn then (s, [Reply(401, NotAuthorized)])
      else
        var port := TableEntry(s.portIdx, w);
        SelectMode(s.(portIdx := s.portIdx + 1), port, w, Reply(227, EnteringPassive(port)))
    case Port =>
      if s.auth != LoggedIn then (s, [Reply(401, NotAuthorized)])
      else
        (match ServerPort(body)
         case None => (s, [Reply(400, InvalidPort)])
         case Some(port) => SelectMode(s, port, w, Reply(200, PortSuccessful(port))))
    case Unknown => (s, [Reply(404, UnknownCommand)])
  }

  // ------------------------------------------------------ the server in place

  class FtpServer {
    var auth: Auth
    var dataCommand: Command
    var asciiMode: bool
    var portIdx: nat
    var relativePath: string
    var fileName: string
    var dataPort: int
    var waiting: seq<nat>
    var started: nat
    var stuck: bool
    /** Everything sent on the control connection. */
    var sent: seq<Reply>

    ghost function Abs(): Session
      reads this
    {
      Session(auth, dataCommand, asciiMode, portIdx, relativePath, fileName, dataPort, waiting, started, stuck)
    }

    constructor ()
      ensures Abs() == NEW_SESSION && sent == []
    {
      auth, dataCommand, asciiMode, portIdx, relativePath, dataPort := NotLoggedIn, Unknown, true, 0, "./", 0;
      fileName, waiting, started, stuck, sent := "", [], 0, false, [];
    }

    /** The first word of `body`, "" if there is none. */
    method FirstWord(body: string) returns (word: string)
      requires '\0' !in body
      ensures word == FirstToken(body, WHITESPACE)
    {
      var scan := new Strtok(body);
      var _, token := scan.Next(WHITESPACE);
      word := token;
    }

    /** pthread_create for a data thread, and what goes with it. */
    method StartThread(port: int)
      modifies this`dataPort, this`waiting, this`started, this`auth
      ensures Abs() == old(Abs()).(dataPort := port, auth := ModeSelected, started := old(started) + 1,
                                   waiting := old(waiting) + [old(started) + 1])
    {
      started := started + 1;
      waiting := waiting + [started];
      dataPort := port;
      auth := ModeSelected;
    }

    /** pthread_cond_signal */
    method Signal(pick: nat)
      modifies this`waiting
      ensures waiting == AfterSignal(old(waiting), pick)
    {
      if waiting != [] {
        var i := pick % |waiting|;
        waiting := waiting[..i] + waiting[i + 1..];
      }
    }

    /** Hand-off to a data thread and back, if the join returns. */
    method RunTransfer(command: Command, subject: string, w: World)
      returns (returned: bool, status: int, responseMessage: Notice)
      modifies this
      ensures var (s, replies) := Transfer(old(Abs()), command, subject, w);
              && Abs() == s
              && sent + (if returned then [Reply(status, responseMessage)] else []) == old(sent) + replies
    {
      dataCommand := command;
      Signal(w.pick);
      sent := sent + [Reply(150, NoText)];
      if started in waiting {
        stuck := true;
        return false, 0, NoText;
      }
      var succeeded := DataThreadSucceeds(dataCommand);
      if !succeeded {
        return true, 500, TransferFailed;
      }
      auth := LoggedIn;
      return true, 226, Transferred(subject);
    }

    /** NLST */
    method List(body: string, w: World) returns (returned: bool, status: int, responseMessage: Notice)
      modifies this
      ensures var (s, replies) := Act(old(Abs()), Nlst, body, w);
              && Abs() == s
              && sent + (if returned then [Reply(status, responseMessage)] else []) == old(sent) + replies
    {
      if auth != ModeSelected {
        return true, 401, SelectModeFirst;
      }
      returned, status, responseMessage := RunTransfer(Nlst, relativePath, w);
    }

    /** RETR */
    method Retrieve(body: string, w: World) returns (returned: bool, status: int, responseMessage: Notice)
      requires '\0' !in body
      modifies this
      ensures var (s, replies) := Act(old(Abs()), Retr, body, w);
              && Abs() == s
              && sent + (if returned then [Reply(status, responseMessage)] else []) == old(sent) + replies
    {
      if auth != ModeSelected {
        return true, 401, SelectModeFirst;
      }
      fileName := FirstWord(body);
      if !ValidDirectoryEntry(w.listing, fileName) {
        return true, 404, FailedOpening(fileName);
      }
      returned, status, responseMessage := RunTransfer(Retr, fileName, w);
    }

    /** PASV */
    method SelectPassive(body: string, w: World) returns (returned: bool, status: int, responseMessage: Notice)
      modifies this
      ensures var (s, replies) := Act(old(Abs()), Pasv, body, w);
              && Abs() == s
              && sent + (if returned then [Reply(status, responseMessage)] else []) == old(sent) + replies
    {
      if auth != LoggedIn {
        return true, 401, NotAuthorized;
      }
      var port := TableEntry(portIdx, w);
      portIdx := portIdx + 1;
      if w.threadFails {
        return true, 500, InternalError;
      }
      StartThread(port);
      return true, 227, EnteringPassive(port);
    }

    /** PORT */
    method SelectActive(body: string, w: World) returns (returned: bool, status: int, responseMessage: Notice)
      requires '\0' !in body
      modifies this
      ensures var (s, replies) := Act(old(Abs()), Port, body, w);
              && Abs() == s
              && sent + (if returned then [Reply(status, responseMessage)] else []) == old(sent) + replies
    {
      if auth != LoggedIn {
        return true, 401, NotAuthorized;
      }
      var port := ParsePortArgument(body);
      match port {
        case None => return true, 400, InvalidPort;
        case Some(n) =>
          if w.threadFails {
            return true, 500, InternalError;
          }
          StartThread(n);
          return true, 200, PortSuccessful(n);
      }
    }

    /** One request: intermediate replies are sent, the final one is returned. */
    method Execute(req: Request, w: World) returns (returned: bool, status: int, responseMessage: Notice)
      requires '\0' !in req.body
      modifies this
      ensures var (s, replies) := Execution(old(Abs()), req, w);
              && Abs() == s
              && sent + (if returned then [Reply(status, responseMessage)] else []) == old(sent) + replies
    {
      var command := Interpret(req.command);
      match command
      case User =>
        if auth == NotLoggedIn {
          if req.body == USER_ID {
            auth := NeedPassword;
            return true, 331, PasswordRequired;
          }
          return true, 400, WrongUser;
        }
        return true, 400, UserGiven;
      case Pass =>
        match auth {
          case NotLoggedIn => return true, 400, EnterUser;
          case NeedPassword =>
            if req.body == USER_PASSWORD {
              auth := LoggedIn;
              return true, 230, LoggedOn;
            }
            return true, 400, WrongPassword;
          case _ => return true, 200, AlreadyLoggedIn;
        }
      case Nlst => returned, status, responseMessage := List(req.body, w);
      case Retr => returned, status, responseMessage := Retrieve(req.body, w);
      case Cwd =>
        if auth != LoggedIn {
          return true, 401, NotAuthorized;
        }
        var dirName := FirstWord(req.body);
        if !ValidDirectoryEntry(w.listing, dirName) {
          return true, 500, DirectoryFailed(relativePath);
        }
        relativePath := relativePath + dirName;
        return true, 226, DirectoryChanged(relativePath);
      case Quit =>
        auth := NotLoggedIn;
        return true, 221, Goodbye;
      case Type =>
        if auth != LoggedIn {
          return true, 401, NotAuthorized;
        }
        if |req.body| != 1 {
          return true, 401, TypeTooLong(req.body);
        }
        if LowerChar(req.body[0]) == 'i' {
          asciiMode := false;
          return true, 200, TypeBinary(req.body);
        } else if LowerChar(req.body[0]) == 'a' {
          asciiMode := true;
          return true, 200, TypeAscii(req.body);
        }
        return true, 401, TypeInvalid(req.body);
      case Pasv => returned, status, responseMessage := SelectPassive(req.body, w);
      case Port => returned, status, responseMessage := SelectActive(req.body, w);
      case Unknown =>
        return true, 404, UnknownCommand;
    }

    /** One turn of the request loop. */
    method Serve(req: Request, w: World)
      requires '\0' !in req.body
      modifies this
      ensures var (s, replies) := Execution(old(Abs()), req, w);
              Abs() == s && sent == old(sent) + replies
    {
      var returned, status, responseMessage := Execute(req, w);
      if returned {
        sent := sent + [Reply(status, responseMessage)];
      }
    }
  }
}
