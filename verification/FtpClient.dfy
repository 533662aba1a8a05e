/** The FTP client: what it sends for what the user enters, and what it does
    with each reply. */
module FtpClientModel {
  import opened Options
  import opened Text
  import opened StrtokModel
  import opened HostPort
  import opened Listing
  import opened FtpSession

  const MAX_LEN_COMMAND := 5

  datatype ClientPc =
    | AwaitFirst      // for the reply to the last request, or the greeting
    | InTransfer      // a data thread has been signalled, the latest is to be joined
    | Joining         // a data thread has ended, but not the latest
    | AwaitSecond     // for the reply that closes a transfer
    | AtPrompt        // for the user
    | Exited
    | Failed          // the process has ended on an error

  /** A data thread that waits to be woken. Whether the reply it was started for
      had accepted the command is a mark for the proofs: the thread is started
      either way. */
  datatype DataThread = DataThread(accepted: bool)

  /** Data threads are numbered as they are started; the one to be joined is the
      latest. They share one socket and one address: each puts the port it has
      read into it before it waits, and whichever is woken connects to `port`.
      `serverData` is missing where the data overran its message. */
  datatype Client = Client(
    pc: ClientPc,
    sentCommand: Command,
    waiting: map<nat, DataThread>,
    started: nat,
    port: int,
    fileName: string,
    serverData: Option<string>)

  const NEW_CLIENT := Client(AwaitFirst, User, map[], 0, 0, "", Some(""))

  predicate IsData(c: Command) {
    c == Nlst || c == Retr
  }

  /** The replies that accept a data port. */
  predicate Accepts(command: Command, status: int) {
    (command == Pasv && status == 227) || (command == Port && status == 200)
  }

  function StartTransfer(c: Client, status: int): Client {
    if ExtractClass(status) == 1 then c.(pc := InTransfer, serverData := Some("")) else c.(pc := AtPrompt)
  }

  /** A data thread has been started. If it got as far as a port it has put it
      into the shared address and is waiting. */
  function StartThread(c: Client, port: Option<int>, accepted: bool): Client {
    var k := c.started + 1;
    match port
    case None => c.(pc := AtPrompt, started := k)
    case Some(p) => c.(pc := AtPrompt, started := k, port := p, waiting := c.waiting[k := DataThread(accepted)])
  }

  /** callback: the reply to the command sent last, as it came over the wire. A
      thread started for PORT reads its port through a null pointer when there is
      no colon in the text. */
  function OnText(c: Client, status: int, text: string): Client {
    match c.sentCommand
    case Nlst => StartTransfer(c, status)
    case Retr => StartTransfer(c, status)
    case Quit => c.(pc := Exited)
    case Pasv => StartThread(c, ClientPassivePort(text), Accepts(Pasv, status))
    case Port =>
      var port := ClientActivePort(text);
      if port.None? then c.(pc := Failed) else StartThread(c, port, Accepts(Port, status))
    case _ => c.(pc := AtPrompt)
  }

  function OnReply(c: Client, reply: Reply): Client {
    OnText(c, reply.status, Render(reply.notice))
  }

  const SUFFIX := "fromServer"

  /** Data thread `k` has received `body` and ends; the join returns if the
      latest thread has ended. The terminators that strtok then puts into a
      listing are not kept: nothing reads the buffer again. */
  function OnData(c: Client, k: nat, body: Option<string>): Client {
    var left := c.waiting - {k};
    c.(pc := if c.started in left then Joining else AwaitSecond, waiting := left, serverData := body,
       fileName := if c.sentCommand == Retr then c.fileName + SUFFIX else c.fileName)
  }

  /** The user has entered a line with a known command. */
  function OnLine(c: Client, line: string): Client {
    c.(pc := AwaitFirst, sentCommand := CommandOf(line),
       fileName := if CommandOf(line) == Retr then RequestOf(line).body else c.fileName)
  }

  /** The command of a line is its first word in any case. */
  function CommandOf(line: string): Command {
    Interpret(FirstToken(line, WHITESPACE))
  }

  /** The request for a line: its first two words, the first in lower case. */
  function RequestOf(line: string): Request {
    Request(Lower(FirstToken(line, WHITESPACE)), FirstToken(AfterToken(line, WHITESPACE), WHITESPACE))
  }

  /** The place of the first line that starts with a known command. */
  function FirstKnown(lines: seq<string>): (k: nat)
    ensures k <= |lines|
  {
    if lines == [] || CommandOf(lines[0]) != Unknown then 0 else 1 + FirstKnown(lines[1..])
  }

  lemma {:induction false} FirstKnownIsFirst(lines: seq<string>)
    ensures FirstKnown(lines) < |lines| ==> CommandOf(lines[FirstKnown(lines)]) != Unknown
    ensures forall n | 0 <= n < FirstKnown(lines) :: CommandOf(lines[n]) == Unknown
  {
    if lines != [] && CommandOf(lines[0]) == Unknown {
      FirstKnownIsFirst(lines[1..]);
    }
  }

  /** The second word of a line, "" if there is none. */
  function SecondWord(line: string): string {
    var words := Tokens(line, WHITESPACE);
    if |words| < 2 then "" else words[1]
  }

  /** The command is read from the first word, and the second is what it is about. */
  lemma RequestIsTwoWords(line: string)
    ensures CommandOf(line) == Interpret(if Tokens(line, WHITESPACE) == [] then "" else Tokens(line, WHITESPACE)[0])
    ensures RequestOf(line).body == SecondWord(line)
  {
    var rest := AfterToken(line, WHITESPACE);
    TokensByStrtok(line, WHITESPACE);
    TokensByStrtok(rest, WHITESPACE);
    if FirstToken(line, WHITESPACE) == "" {
      NothingAfterNull(line, WHITESPACE);
    }
  }

  /** A word is its own first word. */
  lemma WordOfWord(line: string)
    ensures FirstToken(SecondWord(line), WHITESPACE) == SecondWord(line)
  {
    RequestIsTwoWords(line);
    var rest := AfterToken(line, WHITESPACE);
    var t := rest[BlankLength(rest, WHITESPACE)..];
    var word := t[..WordLength(t, WHITESPACE)];
    WordLengthStops(t, WHITESPACE);
    if word != "" {
      FirstTokenIs(word, "", WHITESPACE);
      assert word + "" == word;
    }
  }

  lemma LowerTwice(s: string)
    ensures Lower(Lower(s)) == Lower(s)
  {
    assert forall i | 0 <= i < |s| :: LowerChar(LowerChar(s[i])) == LowerChar(s[i]);
  }

  /** The server reads every command as the client meant it, and a command the
      client knows fits the message's five characters with its terminator. */
  lemma ServerReadsSameCommand(line: string)
    ensures Interpret(RequestOf(line).command) == CommandOf(line)
    ensures CommandOf(line) != Unknown ==> |RequestOf(line).command| < MAX_LEN_COMMAND
  {
    LowerTwice(FirstToken(line, WHITESPACE));
  }

  class FtpClient {
    var sentCommand: Command
    var pc: ClientPc
    var waiting: map<nat, DataThread>
    var started: nat
    var port: int
    var fileName: string
    var serverData: string

    ghost function Abs(): Client
      reads this
    {
      Client(pc, sentCommand, waiting, started, port, fileName, Some(serverData))
    }

    constructor ()
      ensures Abs() == NEW_CLIENT
    {
      sentCommand, pc, waiting, started, port, fileName, serverData := User, AwaitFirst, map[], 0, 0, "", "";
    }

    method Callback(status: int, text: string)
      requires '\0' !in text
      modifies this
      ensures Abs() == OnText(old(Abs()), status, text)
    {
      match sentCommand
      case Nlst => BeginTransfer(status);
      case Retr => BeginTransfer(status);
      case Quit => pc := Exited;
      case Pasv => StartPassive(text, Accepts(Pasv, status));
      case Port => StartActive(text, Accepts(Port, status));
      case _ => pc := AtPrompt;
    }

    method BeginTransfer(status: int)
      modifies this
      ensures Abs() == StartTransfer(old(Abs()), status)
    {
      pc := AtPrompt;
      if ExtractClass(status) == 1 {
        serverData := "";
        pc := InTransfer;
      }
    }

    /** The first part of a data thread's routine, up to its wait: a field that is
        too long ends the thread there. */
    method StartPassive(text: string, accepted: bool)
      requires '\0' !in text
      modifies this
      ensures Abs() == StartThread(old(Abs()), ClientPassivePort(text), accepted)
    {
      var dataPort := ClientDataPort(true, text);
      pc, started := AtPrompt, started + 1;
      if dataPort.Some? {
        port := dataPort.value;
        waiting := waiting[started := DataThread(accepted)];
      }
    }

    /** The same for PORT, where a missing number ends the process. */
    method StartActive(text: string, accepted: bool)
      requires '\0' !in text
      modifies this
      ensures Abs() == if ClientActivePort(text).None? then old(Abs()).(pc := Failed)
                       else StartThread(old(Abs()), ClientActivePort(text), accepted)
    {
      var dataPort := ClientDataPort(false, text);
      if dataPort.None? {
        pc := Failed;
        return;
      }
      pc, started, port := AtPrompt, started + 1, dataPort.value;
      waiting := waiting[started := DataThread(accepted)];
    }

    /** Data thread `k` after it has received, and the join: a listing is printed
        line by line, a file is written under the requested name and a suffix. */
    method ProcessData(k: nat, body: string) returns (lines: seq<string>, written: Option<(string, string)>)
      requires '\0' !in body && k in waiting
      modifies this
      ensures Abs() == OnData(old(Abs()), k, Some(body))
      ensures lines == if sentCommand == Nlst then Tokens(body, BAR_OR_SPACE) else []
      ensures written == if sentCommand == Retr then Some((old(fileName) + SUFFIX, body)) else None
    {
      serverData, lines, written := body, [], None;
      match sentCommand {
        case Retr =>
          fileName := fileName + SUFFIX;
          written := Some((fileName, serverData));
        case Nlst =>
          lines := ShowEntries(serverData);
        case _ =>
      }
      waiting := waiting - {k};
      pc := if started in waiting then Joining else AwaitSecond;
    }

    /** The first two words of a line. */
    method ParseLine(line: string) returns (command: Command, req: Request)
      requires '\0' !in line
      ensures command == CommandOf(line) && req == RequestOf(line)
    {
      var scan := new Strtok(line);
      var p, inputCommand := scan.Next(WHITESPACE);
      command := Interpret(inputCommand);
      inputCommand := Lower(inputCommand);
      var left;
      p, left := scan.Next(WHITESPACE);
      req := Request(inputCommand, left);
    }

    /** Lines are read until one starts with a known command. `used` is the number
        of lines read. */
    method FirstRequest(lines: seq<string>) returns (command: Command, req: Request, used: nat)
      requires FirstKnown(lines) < |lines|
      requires forall k | 0 <= k < |lines| :: '\0' !in lines[k]
      ensures used == FirstKnown(lines) + 1
      ensures command == CommandOf(lines[used - 1]) && req == RequestOf(lines[used - 1])
    {
      used := 1;
      command, req := ParseLine(lines[0]);
      while command == Unknown
        invariant 1 <= used <= |lines|
        invariant FirstKnown(lines) == used - 1 + FirstKnown(lines[used - 1..])
        invariant command == CommandOf(lines[used - 1]) && req == RequestOf(lines[used - 1])
        decreases |lines| - used
      {
        assert lines[used - 1..][1..] == lines[used..];
        command, req := ParseLine(lines[used]);
        used := used + 1;
      }
    }

    /** The prompt: that request is sent. */
    method ReadRequest(lines: seq<string>) returns (req: Request, used: nat)
      requires FirstKnown(lines) < |lines|
      requires forall k | 0 <= k < |lines| :: '\0' !in lines[k]
      modifies this
      ensures used == FirstKnown(lines) + 1
      ensures req == RequestOf(lines[used - 1])
      ensures CommandOf(lines[used - 1]) == Retr ==> fileName == SecondWord(lines[used - 1])
      ensures Abs() == OnLine(old(Abs()), lines[used - 1])
    {
      var command;
      command, req, used := FirstRequest(lines);
      RequestIsTwoWords(lines[used - 1]);
      sentCommand, pc := command, AwaitFirst;
      if sentCommand == Retr {
        fileName := req.body;
      }
    }
  }
}
