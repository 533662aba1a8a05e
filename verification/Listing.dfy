/** The directory listing: packed into one buffer by the server, unpacked by
    the client. */
module Listing {
  import opened Options
  import opened Text
  import opened StrtokModel

  const MAX_BUFFER_SIZE := 1024

  function Packed(names: seq<string>): string {
    if names == [] then "" else Packed(names[..|names| - 1]) + "|" + names[|names| - 1]
  }

  /** The tokens of each name, one after another. */
  function AllTokens(names: seq<string>): seq<string> {
    if names == [] then [] else AllTokens(names[..|names| - 1]) + Tokens(names[|names| - 1], BAR_OR_SPACE)
  }

  lemma {:induction false} PackedLength(names: seq<string>)
    ensures |Packed(names)| == Length(names) + |names|
  {
    if names != [] {
      PackedLength(names[..|names| - 1]);
    }
  }

  /** strcat */
  method Concatenate(buffer: array<char>, ghost s: string, t: string)
    requires Holds(buffer[..], 0, s) && '\0' !in t
    requires |s| + |t| < buffer.Length
    modifies buffer
    ensures Holds(buffer[..], 0, s + t)
  {
    WordLengthStops(s, "");
    var end := SkipWord(buffer, 0, s, "");
    var i := 0;
    while i < |t|
      invariant 0 <= i <= |t|
      invariant buffer[..end] == s
      invariant buffer[end..end + i] == t[..i]
    {
      buffer[end + i] := t[i];
      i := i + 1;
    }
    buffer[end + i] := '\0';
    assert buffer[..][0..end + |t|] == buffer[..end] + buffer[end..end + |t|];
  }

  /** The server's side. The buffer is as large as it is; C demands that the
      entries fit. */
  method GetDirectoryEntries(names: seq<string>) returns (entries: array<char>)
    requires forall n | n in names :: '\0' !in n
    requires Length(names) + |names| < MAX_BUFFER_SIZE
    ensures fresh(entries) && Holds(entries[..], 0, Packed(names))
  {
    entries := new char[MAX_BUFFER_SIZE](_ => '\0');
    ghost var packed := "";
    assert names[..|names|] == names;
    for k := 0 to |names|
      invariant fresh(entries) && entries.Length == MAX_BUFFER_SIZE
      invariant packed == Packed(names[..k]) && Holds(entries[..], 0, packed)
    {
      assert names[..k + 1][..k] == names[..k];
      var entryName := "|" + names[k];
      assert packed + entryName == packed + "|" + names[k];
      assert names[..k + 1] + names[k + 1..] == names;
      LengthConcat(names[..k + 1], names[k + 1..]);
      PackedLength(names[..k + 1]);
      Concatenate(entries, packed, entryName);
      packed := packed + entryName;
    }
  }

  /** The client's side: the lines it prints. */
  method ShowEntries(serverData: string) returns (lines: seq<string>)
    requires '\0' !in serverData
    ensures lines == Tokens(serverData, BAR_OR_SPACE)
  {
    var scan := new Strtok(serverData);
    lines := [];
    var p, token := scan.NextToken(BAR_OR_SPACE);
    while p != -1
      invariant scan.Valid()
      invariant fresh(scan) && fresh(scan.buffer)
      invariant Tokens(serverData, BAR_OR_SPACE) ==
                lines + if p == -1 then [] else [token] + Tokens(scan.rest, BAR_OR_SPACE)
      decreases if p == -1 then 0 else |scan.rest| + 1
    {
      lines := lines + [token];
      p, token := scan.NextToken(BAR_OR_SPACE);
    }
    assert lines + [] == lines;
  }

  /** Unpacking sees each name on its own. */
  lemma {:induction false} TokensOfPacked(names: seq<string>)
    ensures Tokens(Packed(names), BAR_OR_SPACE) == AllTokens(names)
  {
    if names != [] {
      TokensOfPacked(names[..|names| - 1]);
      SplitAt(Packed(names[..|names| - 1]), '|', names[|names| - 1], BAR_OR_SPACE);
    }
  }

  ghost predicate Listable(name: string) {
    name != "" && Clean(name, BAR_OR_SPACE)
  }

  lemma {:induction false} ListableRecovered(names: seq<string>)
    requires forall n | n in names :: Listable(n)
    ensures AllTokens(names) == names
  {
    if names != [] {
      ListableRecovered(names[..|names| - 1]);
      assert Listable(names[|names| - 1]);
      CleanIsOneToken(names[|names| - 1], BAR_OR_SPACE);
      assert names == names[..|names| - 1] + [names[|names| - 1]];
    }
  }

  lemma {:induction false} TokensOnlyShrink(names: seq<string>)
    ensures Length(AllTokens(names)) <= Length(names)
    ensures Length(AllTokens(names)) == Length(names) ==> forall n | n in names :: Clean(n, BAR_OR_SPACE)
    ensures forall i | 0 <= i < |AllTokens(names)| :: AllTokens(names)[i] != ""
  {
    if names != [] {
      var before, last := names[..|names| - 1], names[|names| - 1];
      TokensOnlyShrink(before);
      TokensKeepLength("", last, BAR_OR_SPACE);
      LengthConcat(AllTokens(before), Tokens(last, BAR_OR_SPACE));
      assert names == before + [last];
    }
  }

  /** The client shows exactly the server's names, in order, if and only if no
      name is empty or holds a bar or white space. */
  lemma ListingRoundTrip(names: seq<string>)
    ensures Tokens(Packed(names), BAR_OR_SPACE) == names <==> forall n | n in names :: Listable(n)
  {
    TokensOfPacked(names);
    TokensOnlyShrink(names);
    if forall n | n in names :: Listable(n) {
      ListableRecovered(names);
    }
  }

  /** What arrives of a listing; nothing is promised when the entries overrun
      their buffer. */
  function ListingMessage(names: seq<string>): Option<string> {
    if |Packed(names)| < MAX_BUFFER_SIZE then Some(Packed(names)) else None
  }

  /** The names come through, in order, if and only if each can be listed and all
      of them, a bar before each, leave room for a terminator. */
  lemma ListingArrivesIff(names: seq<string>)
    ensures ListingMessage(names).Some? && Tokens(ListingMessage(names).value, BAR_OR_SPACE) == names <==>
            (forall n | n in names :: Listable(n)) && Length(names) + |names| < MAX_BUFFER_SIZE
  {
    PackedLength(names);
    ListingRoundTrip(names);
  }
}
