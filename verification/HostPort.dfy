/** Agreeing on a data port through text: the host-port argument of PORT, the
    text of the replies to PASV and PORT, and the client's reading of them. */
module HostPort {
  import opened Options
  import opened Text
  import opened StrtokModel

  /** The passive ports in the order handed out. */
  const PORTS: seq<int> := [1025, 1026, 1027, 1028, 1197, 1235, 1236, 12347, 12348, 12342, 4321, 2311, 1239, 1184,
                            1216, 1193, 1143, 1266]

  // -------------------------------------------------------- host-port fields

  /** What the fields read as, without the zeros. */
  function NonZeroValues(tokens: seq<string>): seq<int> {
    if tokens == [] then []
    else
      var v := Atoi(tokens[|tokens| - 1]);
      NonZeroValues(tokens[..|tokens| - 1]) + if v == 0 then [] else [v]
  }

  /** The number whose base-256 digits are `vs`. */
  function Base256(vs: seq<int>): int {
    if vs == [] then 0 else Base256(vs[..|vs| - 1]) * 256 + vs[|vs| - 1]
  }

  /** The fields after the four of the address. */
  function PortFields(tokens: seq<string>): seq<string> {
    if |tokens| <= 4 then [] else tokens[4..]
  }

  /** The port the loop arrives at: fields that read as zero are passed over
      without shifting what came before. */
  function PortOf(tokens: seq<string>): int {
    Base256(NonZeroValues(PortFields(tokens)))
  }

  /** Every field has at most three characters. */
  predicate ShortFields(tokens: seq<string>) {
    forall i | 0 <= i < |tokens| :: |tokens[i]| <= 3
  }

  lemma NonZeroOneMore(tokens: seq<string>, t: string)
    ensures NonZeroValues(tokens + [t]) == NonZeroValues(tokens) + if Atoi(t) == 0 then [] else [Atoi(t)]
  {
    assert (tokens + [t])[..|tokens|] == tokens;
  }

  lemma Base256OneMore(vs: seq<int>, v: int)
    ensures Base256(vs + [v]) == Base256(vs) * 256 + v
  {
    assert (vs + [v])[..|vs|] == vs;
  }

  lemma NoPortYet(tokens: seq<string>)
    requires |tokens| <= 4
    ensures PortFields(tokens) == [] && PortOf(tokens) == 0
  {
  }

  lemma PortFieldsOneMore(tokens: seq<string>, t: string)
    ensures PortFields(tokens + [t]) == if |tokens| < 4 then [] else PortFields(tokens) + [t]
  {
    if |tokens| >= 4 {
      assert (tokens + [t])[4..] == tokens[4..] + [t];
    }
  }

  lemma ValueOneMore(fields: seq<string>, t: string)
    ensures Base256(NonZeroValues(fields + [t])) ==
            if Atoi(t) == 0 then Base256(NonZeroValues(fields)) else Base256(NonZeroValues(fields)) * 256 + Atoi(t)
  {
    NonZeroOneMore(fields, t);
    Base256OneMore(NonZeroValues(fields), Atoi(t));
    assert NonZeroValues(fields) + [] == NonZeroValues(fields);
  }

  lemma PortOfOneMore(tokens: seq<string>, t: string)
    ensures PortOf(tokens + [t]) ==
            if Atoi(t) == 0 || |tokens| < 4 then PortOf(tokens) else PortOf(tokens) * 256 + Atoi(t)
  {
    PortFieldsOneMore(tokens, t);
    if |tokens| < 4 {
      NoPortYet(tokens);
      NoPortYet(tokens + [t]);
    } else {
      ValueOneMore(PortFields(tokens), t);
    }
  }

  /** One field: the first four go to the address, the others to the port. */
  method AddField(ghost seen: seq<string>, idx: nat, address: int, port: int, pch: string)
    returns (address': int, port': int)
    requires idx == |seen| && port == PortOf(seen)
    ensures port' == PortOf(seen + [pch])
  {
    PortOfOneMore(seen, pch);
    address', port' := address, port;
    var value := Atoi(pch);
    if value != 0 {
      if idx < 4 {
        address' := address * 256;
        address' := address' + value;
      } else {
        port' := port * 256;
        port' := port' + value;
      }
    }
  }

  lemma LongField(before: seq<string>, field: string, rest: seq<string>)
    requires |field| > 3
    ensures !ShortFields(before + ([field] + rest))
  {
    assert (before + ([field] + rest))[|before|] == field;
  }

  /** One token more seen, one fewer left. */
  ghost function MoveOver(seen: seq<string>, left: seq<string>): (r: (seq<string>, seq<string>))
    requires left != []
    ensures r.0 + r.1 == seen + left
  {
    (seen + [left[0]], left[1..])
  }

  /** The loop over an argument, up to the first field that is too long. */
  method ParseFields(scan: Strtok, delims: string) returns (ok: bool, port: int)
    requires scan.Valid() && '\0' !in delims
    modifies scan, scan.buffer
    ensures scan.Valid()
    ensures ok <==> ShortFields(Tokens(old(scan.rest), delims))
    ensures ok ==> port == PortOf(Tokens(old(scan.rest), delims))
  {
    ghost var all, seen := Tokens(scan.rest, delims), [];
    var p, pch := scan.NextToken(delims);
    ghost var left := all;
    var idx, address := 0, 0;
    port := 0;
    while p != -1
      invariant scan.Valid()
      invariant idx == |seen| && ShortFields(seen) && port == PortOf(seen)
      invariant all == seen + left
      invariant left == if p == -1 then [] else [pch] + Tokens(scan.rest, delims)
      decreases if p == -1 then 0 else |scan.rest| + 1
    {
      if |pch| > 3 {
        LongField(seen, pch, Tokens(scan.rest, delims));
        return false, 0;
      }
      address, port := AddField(seen, idx, address, port, pch);
      ghost var moved := MoveOver(seen, left);
      assert moved.0 == seen + [pch] && moved.1 == Tokens(scan.rest, delims);
      seen, left := moved.0, moved.1;
      p, pch := scan.NextToken(delims);
      idx := idx + 1;
    }
    assert all == seen;
    ok := true;
  }

  /** The server's PORT argument: None is the 400 reply. */
  function ServerPort(body: string): Option<int> {
    var tokens := Tokens(body, COMMA_OR_SPACE);
    if ShortFields(tokens) then Some(PortOf(tokens)) else None
  }

  method ParsePortArgument(body: string) returns (port: Option<int>)
    requires '\0' !in body
    ensures port == ServerPort(body)
  {
    var scan := new Strtok(body);
    var ok, n := ParseFields(scan, COMMA_OR_SPACE);
    port := if ok then Some(n) else None;
  }

  /** On the six fields of section 5.3.2 of RFC 959 the loop finds the port
      p1 * 256 + p2 exactly when p2 is not zero or p1 is. */
  lemma StandardHostPort(tokens: seq<string>)
    requires |tokens| == 6 && forall i | 0 <= i < 6 :: 0 <= Atoi(tokens[i]) < 256
    ensures var p1, p2 := Atoi(tokens[4]), Atoi(tokens[5]);
            PortOf(tokens) == p1 * 256 + p2 <==> p2 != 0 || p1 == 0
  {
    SixFieldPort(tokens);
  }

  lemma LastTwo(tokens: seq<string>)
    requires |tokens| == 6
    ensures tokens[..5] == tokens[..4] + [tokens[4]]
    ensures tokens == tokens[..5] + [tokens[5]]
  {
  }

  lemma SixFieldPort(tokens: seq<string>)
    requires |tokens| == 6
    ensures var p1, p2 := Atoi(tokens[4]), Atoi(tokens[5]); PortOf(tokens) == if p2 == 0 then p1 else p1 * 256 + p2
  {
    LastTwo(tokens);
    NoPortYet(tokens[..4]);
    PortOfOneMore(tokens[..4], tokens[4]);
    PortOfOneMore(tokens[..5], tokens[5]);
  }

  // ------------------------------------------------------------- the replies

  const PASSIVE_TEXT := "Entering Passive Mode "
  const PORT_TEXT := "Port command successful "

  /** C's division and remainder round toward zero. */
  function Quotient(a: int, b: int): int
    requires b > 0
  {
    if a >= 0 then a / b else -(-a / b)
  }

  function Address(hi: string, lo: string): string {
    " 192,168,0,1," + hi + "," + lo
  }

  function AddressText(port: int): string {
    Address(Print(Quotient(port, 256)), Print(port - Quotient(port, 256) * 256))
  }

  function PassiveReply(port: int): string {
    PASSIVE_TEXT + "|" + AddressText(port)
  }

  function PortReply(port: int): string {
    PORT_TEXT + ":" + Print(port)
  }

  /** The part of a reply after its first `d`, as two calls of strtok find it. */
  function SecondPart(reply: string, d: string): string {
    FirstToken(AfterToken(reply, d), d)
  }

  /** What the client's data thread takes for the port: None where a field is
      too long for it, or where there is no field to read after the colon. */
  function ClientPassivePort(reply: string): Option<int> {
    ServerPort(SecondPart(reply, "|"))
  }

  function ClientActivePort(reply: string): Option<int> {
    if SecondPart(reply, ":") == "" then None else Some(Atoi(SecondPart(reply, ":")))
  }

  /** Two calls of strtok: the address of the second part, or -1, and the part. */
  method FindSecondPart(scan: Strtok, d: string) returns (p: int, part: string)
    requires scan.Valid() && '\0' !in d
    modifies scan, scan.buffer
    ensures scan.Valid() && part == SecondPart(old(scan.rest), d)
    ensures p == -1 <==> part == ""
    ensures p == -1 ==> scan.rest == ""
    ensures p != -1 ==> Holds(scan.buffer[..], p, part)
  {
    var messagePart, _ := scan.Next(d);
    ghost var left := scan.rest;
    p, part := scan.Next(d);
    if p == -1 {
      NothingAfterNull(left, d);
    }
  }

  method ClientDataPort(passive: bool, reply: string) returns (dataPort: Option<int>)
    requires '\0' !in reply
    ensures dataPort == if passive then ClientPassivePort(reply) else ClientActivePort(reply)
  {
    var scan := new Strtok(reply);
    if passive {
      var addressPart, address := FindSecondPart(scan, "|");
      if addressPart != -1 {
        scan.Restart(addressPart, address);
      }
      var ok, n := ParseFields(scan, COMMA_OR_SPACE);
      dataPort := if ok then Some(n) else None;
    } else {
      var portPart, digits := FindSecondPart(scan, ":");
      dataPort := if portPart == -1 then None else Some(Atoi(digits));
    }
  }

  lemma NothingAfterNull(s: string, delims: string)
    requires FirstToken(s, delims) == ""
    ensures AfterToken(s, delims) == ""
  {
    BlankLengthStops(s, delims);
    WordLengthStops(s[BlankLength(s, delims)..], delims);
  }

  // -------------------------------------------------------------- round trips

  lemma PrintedIsClean(n: int, delims: string)
    requires delims in {COMMA_OR_SPACE, "|", ":"}
    ensures Print(n) != "" && Clean(Print(n), delims)
  {
    var m := if n < 0 then -n else n;
    PrintNatDigits(m);
    assert forall i | 0 <= i < |PrintNat(m)| :: PrintNat(m)[i] !in delims;
    assert Clean("-", delims);
    CleanConcat("-", PrintNat(m), delims);
  }

  lemma CleanConcat(a: string, b: string, delims: string)
    requires Clean(a, delims) && Clean(b, delims)
    ensures Clean(a + b, delims)
  {
  }

  lemma SecondPartIs(text: string, d: char, part: string)
    requires text != "" && Clean(text, [d]) && part != "" && Clean(part, [d])
    ensures SecondPart(text + [d] + part, [d]) == part
  {
    assert text + [d] + part == text + ([d] + part);
    FirstTokenIs(text, [d] + part, [d]);
    assert ([d] + part)[1..] == part;
    FirstTokenIs(part, "", [d]);
    assert part + "" == part;
  }

  /** A text of fields with commas between: each clean field is a token. */
  lemma FieldThenRest(a: string, field: string, before: seq<string>)
    requires Tokens(a, COMMA_OR_SPACE) == before && field != "" && Clean(field, COMMA_OR_SPACE)
    ensures Tokens(a + "," + field, COMMA_OR_SPACE) == before + [field]
  {
    SplitAt(a, ',', field, COMMA_OR_SPACE);
    CleanIsOneToken(field, COMMA_OR_SPACE);
  }

  ghost predicate Field(s: string) {
    s != "" && Clean(s, COMMA_OR_SPACE)
  }

  lemma SixFields(a: string, b: string, c: string, d: string, e: string, f: string)
    requires Field(a) && Field(b) && Field(c) && Field(d) && Field(e) && Field(f)
    ensures Tokens(" " + a + "," + b + "," + c + "," + d + "," + e + "," + f, COMMA_OR_SPACE) == [a, b, c, d, e, f]
  {
    SplitAt("", ' ', a, COMMA_OR_SPACE);
    assert "" + [' '] + a == " " + a;
    CleanIsOneToken("", COMMA_OR_SPACE);
    CleanIsOneToken(a, COMMA_OR_SPACE);
    FieldThenRest(" " + a, b, [a]);
    FieldThenRest(" " + a + "," + b, c, [a, b]);
    FieldThenRest(" " + a + "," + b + "," + c, d, [a, b, c]);
    FieldThenRest(" " + a + "," + b + "," + c + "," + d, e, [a, b, c, d]);
    FieldThenRest(" " + a + "," + b + "," + c + "," + d + "," + e, f, [a, b, c, d, e]);
  }

  lemma AddressIsClean(hi: string, lo: string)
    requires Clean(hi, "|") && Clean(lo, "|")
    ensures Clean(Address(hi, lo), "|")
  {
    CleanConcat(" 192,168,0,1,", hi, "|");
    CleanConcat(" 192,168,0,1," + hi, ",", "|");
    CleanConcat(" 192,168,0,1," + hi + ",", lo, "|");
  }

  lemma HostFields()
    ensures Field("192") && Field("168") && Field("0") && Field("1")
  {
  }

  lemma AddressSpelledOut(hi: string, lo: string)
    ensures " " + "192" + "," + "168" + "," + "0" + "," + "1" + "," + hi + "," + lo == Address(hi, lo)
  {
  }

  lemma AddressFields(hi: string, lo: string)
    requires Field(hi) && Field(lo)
    ensures Tokens(Address(hi, lo), COMMA_OR_SPACE) == ["192", "168", "0", "1", hi, lo]
  {
    HostFields();
    SixFields("192", "168", "0", "1", hi, lo);
    AddressSpelledOut(hi, lo);
  }

  lemma AddressPort(hi: string, lo: string)
    requires Field(hi) && Field(lo) && |hi| <= 3 && |lo| <= 3
    ensures ServerPort(Address(hi, lo)) == Some(if Atoi(lo) == 0 then Atoi(hi) else Atoi(hi) * 256 + Atoi(lo))
  {
    AddressFields(hi, lo);
    SixFieldPort(["192", "168", "0", "1", hi, lo]);
  }

  lemma PrintedField(n: nat)
    requires n < 256
    ensures Field(Print(n)) && |Print(n)| <= 3 && Clean(Print(n), "|") && Atoi(Print(n)) == n
  {
    PrintedIsClean(n, COMMA_OR_SPACE);
    PrintedIsClean(n, "|");
    PrintNatDigits(n);
    AtoiOfPrint(n);
  }

  lemma ClientReadsAddress(text: string, hi: string, lo: string, p1: nat, p2: nat)
    requires text != "" && Clean(text, "|")
    requires Field(hi) && |hi| <= 3 && Clean(hi, "|") && Atoi(hi) == p1
    requires Field(lo) && |lo| <= 3 && Clean(lo, "|") && Atoi(lo) == p2
    ensures ClientPassivePort(text + "|" + Address(hi, lo)) == Some(if p2 == 0 then p1 else p1 * 256 + p2)
  {
    AddressIsClean(hi, lo);
    AddressPort(hi, lo);
    SecondPartIs(text, '|', Address(hi, lo));
  }

  lemma HighAndLow(port: nat)
    ensures AddressText(port) == Address(Print(port / 256), Print(port % 256))
  {
  }

  lemma PassiveTextHasNoBar()
    ensures PASSIVE_TEXT != "" && Clean(PASSIVE_TEXT, "|")
  {
  }

  /** What the client makes of the reply to PASV for any port number: a zero low
      byte is dropped together with the shift it stands for. */
  lemma PassiveReading(port: int)
    requires 0 <= port < 65536
    ensures ClientPassivePort(PassiveReply(port)) == Some(if port % 256 == 0 then port / 256 else port)
  {
    var p1, p2 := port / 256, port % 256;
    HighAndLow(port);
    PassiveTextHasNoBar();
    PrintedField(p1);
    PrintedField(p2);
    ClientReadsAddress(PASSIVE_TEXT, Print(p1), Print(p2), p1, p2);
  }

  /** So the client recovers the port exactly when its low byte is not zero, or
      it is zero altogether. */
  lemma PassiveRoundTrip(port: int)
    requires 0 <= port < 65536
    ensures ClientPassivePort(PassiveReply(port)) == Some(port) <==> port % 256 != 0 || port == 0
  {
    PassiveReading(port);
  }

  lemma TablePorts(i: nat)
    requires i < |PORTS|
    ensures 0 < PORTS[i] < 65536 && PORTS[i] % 256 != 0
  {
  }

  /** Every port of the table survives the trip. */
  lemma PassivePortsAgree(i: nat)
    requires i < |PORTS|
    ensures ClientPassivePort(PassiveReply(PORTS[i])) == Some(PORTS[i])
  {
    TablePorts(i);
    PassiveRoundTrip(PORTS[i]);
  }

  /** Whatever number the server read from PORT, the client reads it back. */
  lemma ActivePortsAgree(port: int)
    ensures ClientActivePort(PortReply(port)) == Some(port)
  {
    PrintedIsClean(port, ":");
    SecondPartIs(PORT_TEXT, ':', Print(port));
    AtoiOfPrint(port);
  }

  /** A text without a bar reads as port 0. */
  lemma NoBarReadsAsZero(text: string)
    requires text != "" && Clean(text, "|")
    ensures ClientPassivePort(text) == Some(0)
  {
    FirstTokenIs(text, "", "|");
    assert text + "" == text;
    NoPortYet([]);
  }
}
