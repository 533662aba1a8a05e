/** What of a file fits through the data connection: it is read into a buffer
    that is not cleared, and from there copied as a C string. */
module DataMessage {
  import opened Options
  import opened StrtokModel
  import opened Listing

  /** `s` up to its first terminator. */
  function CString(s: seq<char>): (text: string)
    ensures |text| <= |s| && '\0' !in text
    ensures |text| < |s| <==> '\0' in s
    ensures text == s[..|text|] && (|text| < |s| ==> s[|text|] == '\0')
  {
    if s == [] || s[0] == '\0' then "" else [s[0]] + CString(s[1..])
  }

  /** The buffer after reading: the file as far as it fits, then what the fresh
      memory held. */
  function FileBuffer(file: seq<char>, residue: seq<char>): (buffer: seq<char>)
    ensures |buffer| == MAX_BUFFER_SIZE
  {
    seq(MAX_BUFFER_SIZE, k requires 0 <= k =>
      if k < |file| then file[k] else if k < |residue| then residue[k] else '\0')
  }

  /** What arrives of it; nothing is promised when the copy overruns the message. */
  function FileMessage(file: seq<char>, residue: seq<char>): Option<string> {
    if '\0' in FileBuffer(file, residue) then Some(CString(FileBuffer(file, residue))) else None
  }

  /** getStreamFromFile: `fresh` is the memory just allocated. */
  method GetStreamFromFile(file: seq<char>, serverData: array<char>, ghost residue: seq<char>)
    requires serverData.Length == MAX_BUFFER_SIZE && serverData[..] == FileBuffer([], residue)
    modifies serverData
    ensures serverData[..] == FileBuffer(file, residue)
  {
    var k := 0;
    while k < |file| && k < MAX_BUFFER_SIZE
      invariant 0 <= k <= |file| && k <= MAX_BUFFER_SIZE
      invariant serverData[..] == FileBuffer(file[..k], residue)
    {
      serverData[k] := file[k];
      k := k + 1;
    }
    assert FileBuffer(file[..k], residue) == FileBuffer(file, residue);
  }

  /** newMessage: strcpy into a cleared body, which holds the text as long as
      there is a terminator within its length. */
  method NewBody(text: array<char>) returns (body: array<char>)
    requires text.Length == MAX_BUFFER_SIZE && '\0' in text[..]
    ensures fresh(body) && body.Length == MAX_BUFFER_SIZE
    ensures Holds(body[..], 0, CString(text[..]))
  {
    ghost var s := CString(text[..]);
    body := new char[MAX_BUFFER_SIZE](_ => '\0');
    var k := 0;
    while text[k] != '\0'
      invariant 0 <= k <= |s| && body[..k] == s[..k] && text[..] == old(text[..])
      invariant forall n | k <= n < MAX_BUFFER_SIZE :: body[n] == '\0'
      decreases MAX_BUFFER_SIZE - k
    {
      assert text[..][k] != '\0' && k < |s|;
      body[k] := text[k];
      k := k + 1;
    }
    assert text[..][k] == '\0' && k == |s|;
    assert body[..][0..|s|] == s;
  }

  lemma {:induction false} CStringIs(s: seq<char>, n: nat)
    requires n < |s| && s[n] == '\0' && '\0' !in s[..n]
    ensures CString(s) == s[..n]
  {
    if n > 0 {
      assert s[0] == s[..n][0] && s[1..][..n - 1] == s[..n][1..];
      CStringIs(s[1..], n - 1);
    }
  }

  /** A file arrives unchanged if and only if it holds no terminator, leaves room
      for one, and the memory behind it happens to begin with one. */
  lemma FileArrivesIff(file: seq<char>, residue: seq<char>)
    ensures FileMessage(file, residue) == Some(file) <==>
            '\0' !in file && |file| < MAX_BUFFER_SIZE && (|file| < |residue| ==> residue[|file|] == '\0')
  {
    var buffer := FileBuffer(file, residue);
    if |file| < MAX_BUFFER_SIZE {
      assert buffer[..|file|] == file;
      if '\0' !in file && buffer[|file|] == '\0' {
        CStringIs(buffer, |file|);
      }
    }
  }

  /** A file with a terminator in it is cut there. */
  lemma FileCutAtTerminator(before: string, after: seq<char>, residue: seq<char>)
    requires '\0' !in before && |before| < MAX_BUFFER_SIZE
    ensures FileMessage(before + ['\0'] + after, residue) == Some(before)
  {
    var buffer := FileBuffer(before + ['\0'] + after, residue);
    assert buffer[|before|] == '\0' && buffer[..|before|] == before;
    CStringIs(buffer, |before|);
  }
}
