/** What the command table lets through: each command is its word in any case. */
module FtpCommands {
  import opened FtpSession

  /** `c` is the lower-case letter `l`, or its upper-case counterpart. */
  predicate EitherCase(c: char, l: char) {
    c == l || c as int == l as int - 32
  }

  predicate Spells(s: string, word: string) {
    |s| == |word| && forall i | 0 <= i < |s| :: EitherCase(s[i], word[i])
  }

  function WordOf(c: Command): string {
    match c
    case User => "user"
    case Pass => "pass"
    case Nlst => "nlst"
    case Pasv => "pasv"
    case Retr => "retr"
    case Cwd => "cwd"
    case Quit => "quit"
    case Type => "type"
    case Port => "port"
    case Unknown => ""
  }

  ghost predicate AllLower(word: string) {
    forall i | 0 <= i < |word| :: 97 <= word[i] as int <= 122
  }

  lemma LowerRanges(c: char)
    ensures 65 <= c as int <= 90 ==> LowerChar(c) as int == c as int + 32
    ensures !(65 <= c as int <= 90) ==> LowerChar(c) == c
  {
  }

  lemma LowerIsWordIff(s: string, word: string)
    requires AllLower(word)
    ensures Lower(s) == word <==> Spells(s, word)
  {
    forall i | 0 <= i < |s| && i < |word|
      ensures LowerChar(s[i]) == word[i] <==> EitherCase(s[i], word[i])
    {
      LowerRanges(s[i]);
    }
    if |s| == |word| && Lower(s) == word {
      assert forall i | 0 <= i < |s| :: LowerChar(s[i]) == Lower(s)[i];
    }
  }

  lemma WordsAreLower(c: Command)
    ensures AllLower(WordOf(c))
  {
  }

  lemma NamedIsWord(s: string, c: Command)
    requires c != Unknown
    ensures Named(s) == c <==> s == WordOf(c)
  {
  }

  /** A string is read as a command if and only if it has the length of the
      command's word and each character is the word's in either case; a string
      that fits no word is read as none. */
  lemma InterpretIff(s: string, c: Command)
    ensures c != Unknown ==> (Interpret(s) == c <==> Spells(s, WordOf(c)))
    ensures Interpret(s) == Unknown <==> forall d | d != Unknown :: !Spells(s, WordOf(d))
  {
    forall d | d != Unknown
      ensures Interpret(s) == d <==> Spells(s, WordOf(d))
    {
      WordsAreLower(d);
      LowerIsWordIff(s, WordOf(d));
      NamedIsWord(Lower(s), d);
    }
    assert Interpret(s) != Unknown ==> Spells(s, WordOf(Interpret(s)));
  }
}
