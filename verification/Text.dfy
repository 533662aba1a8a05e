/** Splitting text at delimiters and reading and printing decimal numbers, as
    the C library does it for both ends of the FTP program. */
module Text {
  const WHITESPACE: string := " \t\n\U{0B}\U{0C}\r"
  const COMMA_OR_SPACE: string := ", \t\n\U{0B}\U{0C}\r"
  const BAR_OR_SPACE: string := "| \t\n\U{0B}\U{0C}\r"

  // ------------------------------------------------------------------ tokens

  /** The maximal delimiter-free pieces of `s`, in order; `word` is the piece
      read so far. */
  function TokensFrom(word: string, s: string, delims: string): seq<string>
    decreases |s|
  {
    var closed := if word == "" then [] else [word];
    if s == "" then closed
    else if s[0] in delims then closed + TokensFrom("", s[1..], delims)
    else TokensFrom(word + [s[0]], s[1..], delims)
  }

  function Tokens(s: string, delims: string): seq<string> {
    TokensFrom("", s, delims)
  }

  ghost predicate Clean(s: string, delims: string) {
    forall i | 0 <= i < |s| :: s[i] !in delims
  }

  ghost predicate Blank(s: string, delims: string) {
    forall i | 0 <= i < |s| :: s[i] in delims
  }

  lemma {:induction false} CleanPiece(word: string, w: string, rest: string, delims: string)
    requires Clean(w, delims)
    ensures TokensFrom(word, w + rest, delims) == TokensFrom(word + w, rest, delims)
    decreases |w|
  {
    if w == "" {
      assert w + rest == rest && word + w == word;
    } else {
      assert (w + rest)[1..] == w[1..] + rest;
      assert word + [w[0]] + w[1..] == word + w;
      CleanPiece(word + [w[0]], w[1..], rest, delims);
    }
  }

  lemma {:induction false} LeadingBlanks(b: string, rest: string, delims: string)
    requires Blank(b, delims)
    ensures Tokens(b + rest, delims) == Tokens(rest, delims)
  {
    if b == "" {
      assert b + rest == rest;
    } else {
      assert (b + rest)[1..] == b[1..] + rest;
      LeadingBlanks(b[1..], rest, delims);
    }
  }

  lemma {:induction false} SplitAtFrom(word: string, a: string, d: char, b: string, delims: string)
    requires d in delims
    ensures TokensFrom(word, a + [d] + b, delims) == TokensFrom(word, a, delims) + Tokens(b, delims)
    decreases |a|
  {
    if a == "" {
      assert a + [d] + b == [d] + b;
    } else {
      assert (a + [d] + b)[1..] == a[1..] + [d] + b;
      if a[0] in delims {
        SplitAtFrom("", a[1..], d, b, delims);
      } else {
        SplitAtFrom(word + [a[0]], a[1..], d, b, delims);
      }
    }
  }

  /** Tokenising is additive at any delimiter. */
  lemma SplitAt(a: string, d: char, b: string, delims: string)
    requires d in delims
    ensures Tokens(a + [d] + b, delims) == Tokens(a, delims) + Tokens(b, delims)
  {
    SplitAtFrom("", a, d, b, delims);
  }

  lemma CleanIsOneToken(w: string, delims: string)
    requires Clean(w, delims)
    ensures Tokens(w, delims) == if w == "" then [] else [w]
  {
    CleanPiece("", w, "", delims);
    assert w + "" == w && "" + w == w;
  }

  /** Length of the longest delimiter-free start of `s`. */
  function WordLength(s: string, delims: string): (n: nat)
    ensures n <= |s|
  {
    if s == "" || s[0] in delims then 0 else 1 + WordLength(s[1..], delims)
  }

  /** Length of the longest start of `s` that is all delimiters. */
  function BlankLength(s: string, delims: string): (n: nat)
    ensures n <= |s|
  {
    if s == "" || s[0] !in delims then 0 else 1 + BlankLength(s[1..], delims)
  }

  lemma {:induction false} WordLengthStops(s: string, delims: string)
    ensures var n := WordLength(s, delims); Clean(s[..n], delims) && (n < |s| ==> s[n] in delims)
  {
    if s != "" && s[0] !in delims {
      WordLengthStops(s[1..], delims);
      var n := WordLength(s[1..], delims);
      assert s[..n + 1] == [s[0]] + s[1..][..n];
    }
  }

  lemma {:induction false} BlankLengthStops(s: string, delims: string)
    ensures var n := BlankLength(s, delims); Blank(s[..n], delims) && (n < |s| ==> s[n] !in delims)
  {
    if s != "" && s[0] in delims {
      BlankLengthStops(s[1..], delims);
      var n := BlankLength(s[1..], delims);
      assert s[..n + 1] == [s[0]] + s[1..][..n];
    }
  }

  /** What strtok returns on `s`, "" standing for NULL. */
  function FirstToken(s: string, delims: string): string {
    var t := s[BlankLength(s, delims)..];
    t[..WordLength(t, delims)]
  }

  /** What it leaves for the next call: past the delimiter it overwrites. */
  function AfterToken(s: string, delims: string): string {
    var t := s[BlankLength(s, delims)..];
    var n := WordLength(t, delims);
    if n == |t| then "" else t[n + 1..]
  }

  /** Where the first token and the rest lie in `s`. */
  lemma FirstTokenLies(s: string, delims: string, b: nat, e: nat)
    requires b == BlankLength(s, delims) && e == b + WordLength(s[b..], delims)
    ensures b <= e <= |s|
    ensures FirstToken(s, delims) == s[b..e]
    ensures AfterToken(s, delims) == if e == |s| then "" else s[e + 1..]
    ensures b == e <==> b == |s|
  {
    BlankLengthStops(s, delims);
    WordLengthStops(s[b..], delims);
    assert s[b..][..e - b] == s[b..e];
    assert e < |s| ==> s[b..][e - b + 1..] == s[e + 1..];
  }

  lemma TokensOfPieces(b: string, w: string, rest: string, delims: string)
    requires Blank(b, delims) && Clean(w, delims) && (rest == "" || rest[0] in delims) && (w == "" ==> rest == "")
    ensures Tokens(b + w + rest, delims) ==
            if w == "" then [] else [w] + Tokens(if rest == "" then "" else rest[1..], delims)
  {
    assert b + w + rest == b + (w + rest) && "" + w == w;
    LeadingBlanks(b, w + rest, delims);
    CleanPiece("", w, rest, delims);
  }

  /** Repeated strtok yields the tokens. */
  lemma TokensByStrtok(s: string, delims: string)
    ensures Tokens(s, delims) ==
            if FirstToken(s, delims) == "" then [] else [FirstToken(s, delims)] + Tokens(AfterToken(s, delims), delims)
  {
    var b := BlankLength(s, delims);
    var t := s[b..];
    var n := WordLength(t, delims);
    BlankLengthStops(s, delims);
    WordLengthStops(t, delims);
    assert s == s[..b] + t[..n] + t[n..];
    TokensOfPieces(s[..b], t[..n], t[n..], delims);
  }

  lemma {:induction false} WordLengthIs(w: string, rest: string, delims: string)
    requires Clean(w, delims) && (rest == "" || rest[0] in delims)
    ensures WordLength(w + rest, delims) == |w|
  {
    if w == "" {
      assert w + rest == rest;
    } else {
      WordLengthIs(w[1..], rest, delims);
      assert (w + rest)[1..] == w[1..] + rest;
    }
  }

  /** A text that starts with a word has that word as first token. */
  lemma FirstTokenIs(w: string, rest: string, delims: string)
    requires w != "" && Clean(w, delims) && (rest == "" || rest[0] in delims)
    ensures FirstToken(w + rest, delims) == w
    ensures AfterToken(w + rest, delims) == if rest == "" then "" else rest[1..]
  {
    WordLengthIs(w, rest, delims);
    assert (w + rest)[0] == w[0];
    assert (w + rest)[0..] == w + rest;
  }

  function Length(parts: seq<string>): nat {
    if parts == [] then 0 else Length(parts[..|parts| - 1]) + |parts[|parts| - 1]|
  }

  lemma {:induction false} LengthConcat(a: seq<string>, b: seq<string>)
    ensures Length(a + b) == Length(a) + Length(b)
  {
    if b == [] {
      assert a + b == a;
    } else {
      LengthConcat(a, b[..|b| - 1]);
      assert (a + b)[..|a + b| - 1] == a + b[..|b| - 1];
    }
  }

  /** Delimiters are dropped and nothing else: tokens are never empty, and keep
      all the characters exactly when there was no delimiter. */
  lemma {:induction false} TokensKeepLength(word: string, s: string, delims: string)
    ensures forall i | 0 <= i < |TokensFrom(word, s, delims)| :: TokensFrom(word, s, delims)[i] != ""
    ensures Length(TokensFrom(word, s, delims)) <= |word| + |s|
    ensures Length(TokensFrom(word, s, delims)) == |word| + |s| <==> Clean(s, delims)
    decreases |s|
  {
    if s != "" {
      if s[0] in delims {
        TokensKeepLength("", s[1..], delims);
        var closed: seq<string> := if word == "" then [] else [word];
        LengthConcat(closed, TokensFrom("", s[1..], delims));
      } else {
        TokensKeepLength(word + [s[0]], s[1..], delims);
      }
    }
  }

  // ---------------------------------------------------------------- decimals

  predicate IsDigit(c: char) {
    '0' <= c <= '9'
  }

  function DigitValue(c: char): nat
    requires IsDigit(c)
  {
    c as int - '0' as int
  }

  function Digit(d: nat): (c: char)
    requires d < 10
    ensures IsDigit(c) && DigitValue(c) == d
  {
    ('0' as int + d) as char
  }

  /** printf's %d */
  function Print(n: int): string {
    if n < 0 then "-" + PrintNat(-n) else PrintNat(n)
  }

  function PrintNat(n: nat): (s: string)
    ensures s != ""
  {
    (if n < 10 then "" else PrintNat(n / 10)) + [Digit(n % 10)]
  }

  lemma {:induction false} PrintNatDigits(n: nat)
    ensures forall i | 0 <= i < |PrintNat(n)| :: IsDigit(PrintNat(n)[i])
    ensures n < 10 ==> |PrintNat(n)| == 1
    ensures n < 100 ==> |PrintNat(n)| <= 2
    ensures n < 1000 ==> |PrintNat(n)| <= 3
  {
    if n >= 10 {
      PrintNatDigits(n / 10);
    }
  }

  /** atoi, without the overflow C leaves undefined. */
  function Atoi(s: string): int {
    if s == "" then 0
    else if s[0] in WHITESPACE then Atoi(s[1..])
    else if s[0] == '-' then -AtoiDigits(s[1..], 0)
    else if s[0] == '+' then AtoiDigits(s[1..], 0)
    else AtoiDigits(s, 0)
  }

  function AtoiDigits(s: string, value: int): int {
    if s == "" || !IsDigit(s[0]) then value else AtoiDigits(s[1..], value * 10 + DigitValue(s[0]))
  }

  lemma {:induction false} DigitsOfPrint(n: nat, rest: string)
    ensures AtoiDigits(PrintNat(n) + rest, 0) == AtoiDigits(rest, n)
  {
    var last := [Digit(n % 10)];
    assert (last + rest)[1..] == rest;
    if n < 10 {
      assert PrintNat(n) == last;
    } else {
      assert PrintNat(n) + rest == PrintNat(n / 10) + (last + rest);
      DigitsOfPrint(n / 10, last + rest);
    }
  }

  lemma AtoiOfPrint(n: int)
    ensures Atoi(Print(n)) == n
  {
    var m := if n < 0 then -n else n;
    DigitsOfPrint(m, "");
    PrintNatDigits(m);
    assert PrintNat(m) + "" == PrintNat(m);
    assert n < 0 ==> Print(n)[1..] == PrintNat(m);
    assert forall c | c in WHITESPACE :: !IsDigit(c);
  }
}
