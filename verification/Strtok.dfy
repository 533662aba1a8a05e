/** strtok over a character buffer: it writes a terminator over the delimiter
    that ends each token and remembers where to go on. */
module StrtokModel {
  import opened Text

  /** The C string that starts at `p` in `buffer` is `s`. */
  ghost predicate Holds(buffer: seq<char>, p: int, s: string) {
    && 0 <= p && p + |s| < |buffer|
    && buffer[p..p + |s|] == s
    && buffer[p + |s|] == '\0'
    && '\0' !in s
  }

  lemma HoldsFrom(buffer: seq<char>, p: int, s: string, k: nat)
    requires Holds(buffer, p, s) && k <= |s|
    ensures Holds(buffer, p + k, s[k..])
    ensures buffer[p + k] == if k < |s| then s[k] else '\0'
    ensures buffer[p + k] == '\0' <==> k == |s|
  {
    assert buffer[p + k..p + |s|] == s[k..];
    if k < |s| {
      assert s[k] == buffer[p..p + |s|][k];
    }
  }

  /** Overwriting the character after the first `n` splits a string in two. */
  lemma HoldsBothSides(buffer: seq<char>, p: int, s: string, n: nat)
    requires Holds(buffer, p, s) && n < |s|
    ensures var cut := buffer[p + n := '\0']; Holds(cut, p, s[..n]) && Holds(cut, p + n + 1, s[n + 1..])
  {
    var cut := buffer[p + n := '\0'];
    HoldsFrom(buffer, p, s, n + 1);
    assert cut[p..p + n] == buffer[p..p + |s|][..n];
    assert cut[p + n + 1..p + |s|] == buffer[p + n + 1..p + |s|];
  }

  /** The first character of a string in place, and the string after it. */
  lemma HoldsHead(buffer: seq<char>, p: int, s: string)
    requires Holds(buffer, p, s)
    ensures buffer[p] == if s == "" then '\0' else s[0]
    ensures s != "" ==> s[0] != '\0' && Holds(buffer, p + 1, s[1..])
  {
    if s != "" {
      HoldsFrom(buffer, p, s, 1);
      HoldsFrom(buffer, p, s, 0);
    }
  }

  /** The position of the first character from `start` on that is no delimiter. */
  method SkipBlanks(buffer: array<char>, start: nat, ghost text: string, delims: string) returns (i: nat)
    requires Holds(buffer[..], start, text) && '\0' !in delims
    ensures i == start + BlankLength(text, delims)
  {
    i := start;
    ghost var left := text;
    HoldsHead(buffer[..], i, left);
    while buffer[i] in delims
      invariant Holds(buffer[..], i, left) && buffer[i] == if left == "" then '\0' else left[0]
      invariant i + BlankLength(left, delims) == start + BlankLength(text, delims)
      decreases |left|
    {
      HoldsHead(buffer[..], i, left);
      i, left := i + 1, left[1..];
      HoldsHead(buffer[..], i, left);
    }
  }

  /** The position of the first delimiter from `start` on, or of the end. */
  method SkipWord(buffer: array<char>, start: nat, ghost text: string, delims: string) returns (j: nat)
    requires Holds(buffer[..], start, text)
    ensures j == start + WordLength(text, delims)
  {
    j := start;
    ghost var left := text;
    HoldsHead(buffer[..], j, left);
    while buffer[j] != '\0' && buffer[j] !in delims
      invariant Holds(buffer[..], j, left) && buffer[j] == if left == "" then '\0' else left[0]
      invariant j + WordLength(left, delims) == start + WordLength(text, delims)
      decreases |left|
    {
      HoldsHead(buffer[..], j, left);
      j, left := j + 1, left[1..];
      HoldsHead(buffer[..], j, left);
    }
    HoldsHead(buffer[..], j, left);
  }

  /** Characters b to e of `text`, in the buffer. */
  lemma PieceInBuffer(buffer: seq<char>, p: nat, text: string, b: nat, e: nat)
    requires Holds(buffer, p, text) && b <= e <= |text|
    ensures buffer[p + b..p + e] == text[b..e]
    ensures buffer[p + e] == '\0' <==> e == |text|
  {
    forall k | b <= k < e ensures buffer[p + k] == text[k] { HoldsFrom(buffer, p, text, k); }
    HoldsFrom(buffer, p, text, e);
  }

  /** The last piece ends with the text. */
  lemma LastPiece(buffer: seq<char>, p: nat, text: string, b: nat)
    requires Holds(buffer, p, text) && b <= |text|
    ensures Holds(buffer, p + b, text[b..|text|]) && Holds(buffer, p + |text|, "")
  {
    HoldsFrom(buffer, p, text, b);
    HoldsFrom(buffer, p, text, |text|);
    assert text[b..|text|] == text[b..] && text[|text|..] == "";
  }

  /** An inner piece becomes a string of its own, and so does what follows. */
  lemma InnerPiece(buffer: seq<char>, p: nat, text: string, b: nat, e: nat)
    requires Holds(buffer, p, text) && b <= e < |text|
    ensures var cut := buffer[p + e := '\0'];
            Holds(cut, p + b, text[b..e]) && Holds(cut, p + e + 1, text[e + 1..])
  {
    HoldsFrom(buffer, p, text, b);
    HoldsBothSides(buffer, p + b, text[b..], e - b);
    assert text[b..][..e - b] == text[b..e] && text[b..][e - b + 1..] == text[e + 1..];
  }

  class Strtok {
    const buffer: array<char>
    var saved: nat
    /** The text from the saved position on. */
    ghost var rest: string

    ghost predicate Valid()
      reads this, buffer
    {
      Holds(buffer[..], saved, rest)
    }

    /** strcpy of `text` into a fresh buffer, scanned from its start. */
    constructor (text: string)
      requires '\0' !in text
      ensures Valid() && rest == text && fresh(buffer)
    {
      buffer := new char[|text| + 1](i requires 0 <= i <= |text| => if i < |text| then text[i] else '\0');
      saved, rest := 0, text;
      new;
      assert buffer[..|text|] == text;
    }

    /** strtok with a string instead of NULL. */
    method Restart(p: nat, ghost text: string)
      requires Holds(buffer[..], p, text)
      modifies this
      ensures Valid() && rest == text
    {
      saved, rest := p, text;
    }

    /** Where the next token starts and ends; `b` and `e` are the same places
        counted in what is still to be scanned. */
    method Locate(delims: string) returns (p: nat, end: nat, ghost b: nat, ghost e: nat)
      requires Valid() && '\0' !in delims
      ensures b <= e <= |rest| && p == saved + b && end == saved + e
      ensures FirstToken(rest, delims) == rest[b..e]
      ensures AfterToken(rest, delims) == if e == |rest| then "" else rest[e + 1..]
      ensures Holds(buffer[..], p, rest[b..])
      ensures buffer[p] == '\0' <==> b == e
      ensures b == e <==> b == |rest|
    {
      p := SkipBlanks(buffer, saved, rest, delims);
      b := p - saved;
      HoldsFrom(buffer[..], saved, rest, b);
      end := SkipWord(buffer, p, rest[b..], delims);
      e := end - saved;
      FirstTokenLies(rest, delims, b, e);
    }

    /** Ends the token that runs from `p` to `end`, characters b to e of what is
        still to be scanned, and moves on. */
    method Close(p: nat, end: nat, ghost b: nat, ghost e: nat) returns (token: string)
      requires Valid() && b <= e <= |rest| && p == saved + b && end == saved + e
      modifies this, buffer
      ensures Valid()
      ensures token == old(rest)[b..e] && Holds(buffer[..], p, token)
      ensures rest == if e == |old(rest)| then "" else old(rest)[e + 1..]
    {
      ghost var before, text := buffer[..], rest;
      PieceInBuffer(before, saved, text, b, e);
      token := buffer[p..end];
      assert token == before[p..end] == text[b..e];
      if buffer[end] == '\0' {
        LastPiece(before, saved, text, b);
        saved, rest := end, "";
      } else {
        InnerPiece(before, saved, text, b, e);
        buffer[end] := '\0';
        assert buffer[..] == before[end := '\0'];
        saved, rest := end + 1, text[e + 1..];
      }
    }

    /** strtok(NULL, delims): the token's address, or -1 for NULL, and the token. */
    method Next(delims: string) returns (p: int, token: string)
      requires Valid() && '\0' !in delims
      modifies this, buffer
      ensures Valid()
      ensures token == FirstToken(old(rest), delims) && rest == AfterToken(old(rest), delims)
      ensures p == -1 <==> token == ""
      ensures p != -1 ==> Holds(buffer[..], p, token)
    {
      var start, end;
      ghost var b, e;
      start, end, b, e := Locate(delims);
      if buffer[start] == '\0' {
        saved, rest := start, rest[b..];
        return -1, "";
      }
      p := start;
      token := Close(start, end, b, e);
    }

    /** The same call, seen as one step through the tokens of the text. */
    method NextToken(delims: string) returns (p: int, token: string)
      requires Valid() && '\0' !in delims
      modifies this, buffer
      ensures Valid() && |rest| <= |old(rest)|
      ensures if p == -1 then Tokens(old(rest), delims) == []
              else Tokens(old(rest), delims) == [token] + Tokens(rest, delims) && |rest| < |old(rest)|
    {
      TokensByStrtok(rest, delims);
      p, token := Next(delims);
    }
  }
}
