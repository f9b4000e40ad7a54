/**
 Writing a command and reading it back.
 */
module CommandRoundTrip {
  import opened Domain
  import opened Text
  import opened CommandParser

  // Nothing to trim at either end.
  predicate Trimmed(s: string) {
    s == [] || (!IsSpace(s[0]) && !IsSpace(s[|s| - 1]))
  }

  lemma TrimmedStays(s: string)
    requires Trimmed(s)
    ensures Trim(s) == s && TrimStart(s) == s
  {
  }

  // A token of the given lower case.
  predicate Spells(word: string, lower: string) {
    word != [] && NoSpace(word) && Lower(word) == lower
  }

  function Spoken(word: string, rest: string): string {
    if rest == [] then word else word + " " + rest
  }

  // How a command is written: the keyword, the verb if any, and the extra text of its line.
  datatype Wording = Wording(keyword: string, verb: Option<string>, extra: string)

  predicate Sayable(c: Wording) {
    && Spells(c.keyword, "omgr")
    && Trimmed(c.extra) && OnOneLine(c.extra)
    && match c.verb
       case None => Lower(Token(c.extra)) != "implement"
       case Some(word) => Spells(word, "implement")
  }

  function Remainder(c: Wording): string {
    if c.verb.None? then c.extra else Spoken(c.verb.value, c.extra)
  }

  function CommandLine(c: Wording): string {
    "/" + Spoken(c.keyword, Remainder(c))
  }

  function VerbOf(c: Wording): Option<Verb> {
    if c.verb.None? then None else Some(Implement)
  }

  lemma HeadThenRest(word: string, rest: string)
    requires word != [] && NoSpace(word) && Trimmed(rest) && OnOneLine(rest)
    ensures MatchHead(Spoken(word, rest)) == Some(Head(word, rest))
    ensures Trimmed(Spoken(word, rest))
  {
    if rest == [] {
      assert word + [] + [] == word;
      SplitsMatch(word, word, [], []);
    } else {
      SplitsMatch(word + " " + rest, word, " ", rest);
    }
    TrimmedStays(rest);
  }

  lemma SpokenOnOneLine(word: string, rest: string)
    requires NoSpace(word) && OnOneLine(rest)
    ensures OnOneLine(Spoken(word, rest))
  {
    forall c | c in Spoken(word, rest) ensures !IsLineTerminator(c) {
      assert c in word || c == ' ' || c in rest;
    }
  }

  lemma NoVerbReads(extra: string)
    requires Lower(Token(extra)) != "implement"
    ensures FirstExtra(extra) == (None, extra)
  {
  }

  lemma VerbReads(word: string, extra: string)
    requires Spells(word, "implement") && Trimmed(extra) && OnOneLine(extra)
    ensures FirstExtra(Spoken(word, extra)) == (Some(Implement), extra)
  {
    HeadThenRest(word, extra);
    TrimmedStays(extra);
  }

  lemma RemainderReads(c: Wording)
    requires Sayable(c)
    ensures FirstExtra(Remainder(c)) == (VerbOf(c), c.extra)
    ensures Trimmed(Remainder(c)) && OnOneLine(Remainder(c))
  {
    match c.verb
    case None => NoVerbReads(c.extra);
    case Some(word) =>
      VerbReads(word, c.extra);
      HeadThenRest(word, c.extra);
      SpokenOnOneLine(word, c.extra);
  }

  lemma LineTrimmed(c: Wording)
    requires Sayable(c)
    ensures Trimmed(CommandLine(c)) && CommandLine(c)[0] == '/'
    ensures CommandLine(c)[1..] == Spoken(c.keyword, Remainder(c))
    ensures OnOneLine(CommandLine(c))
  {
    RemainderReads(c);
    HeadThenRest(c.keyword, Remainder(c));
    SpokenOnOneLine(c.keyword, Remainder(c));
  }

  lemma LineReads(c: Wording, following: seq<string>)
    requires Sayable(c)
    ensures ReadCommand(CommandLine(c), following)
         == Some(ParsedCommand(VerbOf(c), Instructions(c.extra, Join(following, "\n"))))
  {
    LineTrimmed(c);
    RemainderReads(c);
    HeadThenRest(c.keyword, Remainder(c));
    TrimmedStays(Remainder(c));
    TrimmedStays(CommandLine(c));
  }

  lemma JoinLonger(c: char, lines: seq<string>)
    requires lines != []
    ensures Join(Longer(c, lines), "\n") == [c] + Join(lines, "\n")
  {
    assert Longer(c, lines)[1..] == lines[1..];
  }

  lemma {:induction false} JoinedLines(s: string)
    requires '\r' !in s
    ensures Join(Lines(s), "\n") == s
  {
    if s != [] {
      JoinedLines(s[1..]);
      if Break(s) > 0 {
        FirstBreak(s);
      } else {
        NoBreak(s);
        JoinLonger(s[0], Lines(s[1..]));
      }
    }
  }

  lemma SlashSpeaks(line: string)
    requires Trimmed(line) && line != [] && line[0] == '/'
    ensures KindOf(line) == Speech
  {
    TrimmedStays(line);
  }

  lemma FirstSpeaks(kinds: seq<Kind>)
    requires kinds != [] && kinds[0] == Speech
    ensures FirstSpeaking(kinds, 0) == Some(0)
  {
    assert Fences(kinds, 0) == 0;
  }

  lemma CommandLineLocated(c: Wording, more: seq<string>)
    requires Sayable(c)
    ensures Locate([CommandLine(c)] + more) == Some(Found(CommandLine(c), more))
  {
    var lines := [CommandLine(c)] + more;
    LineTrimmed(c);
    SlashSpeaks(CommandLine(c));
    KindsAt(lines, 0);
    FirstSpeaks(Kinds(lines));
    assert lines[1..] == more;
  }

  // Verb, extra text and the text on the lines below are read back as they were written, however the
  // keyword and the verb are capitalised; if both texts are there they come on lines of their own.
  lemma WrittenCommandReadsBack(c: Wording, below: string)
    requires Sayable(c) && '\r' !in below
    ensures var parsed := Parsed(Some(CommandLine(c) + "\n" + below));
            && parsed.Some? && parsed.value.verb == VerbOf(c)
            && parsed.value.additionalInstructions ==
                 if c.extra == "" then Trim(below)
                 else if below == "" then c.extra
                 else Trim(c.extra + "\n" + below)
    ensures Trimmed(below) ==> Trim(below) == below
  {
    LineTrimmed(c);
    LineThenRest(CommandLine(c), "\n", below);
    CommandLineLocated(c, Lines(below));
    LineReads(c, Lines(below));
    JoinedLines(below);
    TrimmedStays(c.extra);
    if Trimmed(below) { TrimmedStays(below); }
  }
}
