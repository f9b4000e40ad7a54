/**
 The comment command parser: a line scanner that knows about code fences and quotes, and the
 reading of the command line it finds.
 */
module CommandParser {
  import opened Domain
  import opened Text

  datatype Verb = Implement

  datatype ParsedCommand = ParsedCommand(verb: Option<Verb>, additionalInstructions: string)

  const TRIGGER_KEYWORD := "omgr"
  const IMPLEMENT := "implement"
  const FENCE := "```"

  datatype Kind = Fence | Blank | Quote | Speech

  function KindOf(line: string): Kind {
    var trimmed := Trim(line);
    if StartsWith(trimmed, FENCE) then Fence
    else if trimmed == [] then Blank
    else if StartsWith(trimmed, ">") then Quote
    else Speech
  }

  // What a line is, by its characters: white space around it does not matter; three backticks make it a
  // fence, ">" a quote.
  lemma KindOnCharacters(before: string, core: string, after: string)
    requires AllSpace(before) && AllSpace(after)
    requires core != [] && !IsSpace(core[0]) && !IsSpace(core[|core| - 1])
    ensures KindOf(before + core + after) ==
              if |core| >= 3 && core[0] == '`' && core[1] == '`' && core[2] == '`' then Fence
              else if core[0] == '>' then Quote
              else Speech
  {
    TrimOfPadded(before, core, after);
  }

  lemma BlankOnCharacters(line: string)
    ensures KindOf(line) == Blank <==> AllSpace(line)
  {
    TrimsToNothing(line);
  }

  function Kinds(lines: seq<string>): (r: seq<Kind>)
    ensures |r| == |lines|
  {
    if lines == [] then [] else [KindOf(lines[0])] + Kinds(lines[1..])
  }

  lemma {:induction false} KindsAt(lines: seq<string>, i: nat)
    requires i < |lines|
    ensures Kinds(lines)[i] == KindOf(lines[i])
  {
    if i > 0 {
      KindsAt(lines[1..], i - 1);
    }
  }

  lemma {:induction false} KindsConcat(a: seq<string>, b: seq<string>)
    ensures Kinds(a + b) == Kinds(a) + Kinds(b)
  {
    if a == [] {
      assert a + b == b;
    } else {
      assert (a + b)[1..] == a[1..] + b;
      KindsConcat(a[1..], b);
    }
  }

  /* ---- Which line is the command ---- */

  // The number of fence lines among the first n.
  function Fences(kinds: seq<Kind>, n: nat): nat
    requires n <= |kinds|
  {
    if n == 0 then 0 else Fences(kinds, n - 1) + if kinds[n - 1].Fence? then 1 else 0
  }

  predicate InFence(kinds: seq<Kind>, n: nat)
    requires n <= |kinds|
  {
    Fences(kinds, n) % 2 == 1
  }

  // Line i stands in the open and says something.
  predicate Speaks(kinds: seq<Kind>, i: nat)
    requires i < |kinds|
  {
    kinds[i].Speech? && !InFence(kinds, i)
  }

  function FirstSpeaking(kinds: seq<Kind>, from: nat): (k: Option<nat>)
    requires from <= |kinds|
    ensures k.Some? ==> from <= k.value < |kinds| && Speaks(kinds, k.value)
    decreases |kinds| - from
  {
    if from == |kinds| then None
    else if Speaks(kinds, from) then Some(from)
    else FirstSpeaking(kinds, from + 1)
  }

  // The line taken as the command stands outside every fence and quote, and is the first to do so.
  lemma {:induction false} CommandLineInTheOpen(kinds: seq<Kind>, from: nat)
    requires from <= |kinds|
    ensures match FirstSpeaking(kinds, from)
            case Some(k) => from <= k < |kinds| && Speaks(kinds, k) && forall i :: from <= i < k ==> !Speaks(kinds, i)
            case None => forall i :: from <= i < |kinds| ==> !Speaks(kinds, i)
    decreases |kinds| - from
  {
    if from < |kinds| && !Speaks(kinds, from) {
      CommandLineInTheOpen(kinds, from + 1);
    }
  }

  /* ---- Reading it ---- */

  datatype Head = Head(token: string, rest: string)

  predicate OnOneLine(s: string) {
    forall c :: c in s ==> !IsLineTerminator(c)
  }

  // /^(\S+)(?:\s+(.*))?$/
  function MatchHead(s: string): Option<Head> {
    var token := Token(s);
    var rest := TrimStart(s[|token|..]);
    if token == [] || !OnOneLine(rest) then None else Some(Head(token, rest))
  }

  function FirstExtra(remainder: string): (Option<Verb>, string) {
    match MatchHead(remainder)
    case Some(head) => if Lower(head.token) == IMPLEMENT then (Some(Implement), Trim(head.rest)) else (None, remainder)
    case None => (None, remainder)
  }

  function Instructions(firstLineExtra: string, followingLines: string): string {
    Trim(if firstLineExtra == [] then followingLines
         else if followingLines == [] then firstLineExtra
         else firstLineExtra + "\n" + followingLines)
  }

  function ReadCommand(line: string, following: seq<string>): Option<ParsedCommand> {
    var commandLine := Trim(line);
    if !StartsWith(commandLine, "/") then None
    else match MatchHead(commandLine[1..])
      case None => None
      case Some(head) =>
        if Lower(head.token) != TRIGGER_KEYWORD then None
        else
          var (verb, extra) := FirstExtra(Trim(head.rest));
          Some(ParsedCommand(verb, Instructions(extra, Join(following, "\n"))))
  }

  datatype Found = Found(line: string, following: seq<string>)

  // The line taken as the command, and what follows it.
  function LocateIn(kinds: seq<Kind>, lines: seq<string>): Option<Found>
    requires |kinds| == |lines|
  {
    match FirstSpeaking(kinds, 0)
    case None => None
    case Some(k) => Some(Found(lines[k], lines[k + 1..]))
  }

  function Locate(lines: seq<string>): Option<Found> {
    LocateIn(Kinds(lines), lines)
  }

  function ReadFound(found: Option<Found>): Option<ParsedCommand> {
    if found.None? then None else ReadCommand(found.value.line, found.value.following)
  }

  // What a comment body says; a body that is not text says nothing.
  function Parsed(body: Option<string>): Option<ParsedCommand> {
    if body.None? then None else ReadFound(Locate(Lines(body.value)))
  }

  method ReadCommandLine(line: string, following: seq<string>) returns (r: Option<ParsedCommand>)
    ensures r == ReadCommand(line, following)
  {
    var commandLine := Trim(line);
    if !StartsWith(commandLine, "/") {
      return None;
    }
    var matched := MatchHead(commandLine[1..]);
    if matched.None? || Lower(matched.value.token) != TRIGGER_KEYWORD {
      return None;
    }
    var remainder := Trim(matched.value.rest);
    var verb: Option<Verb> := None;
    var firstLineExtra := remainder;
    if |remainder| > 0 {
      var tokenMatch := MatchHead(remainder);
      if tokenMatch.Some? && Lower(tokenMatch.value.token) == IMPLEMENT {
        verb := Some(Implement);
        firstLineExtra := Trim(tokenMatch.value.rest);
      }
    }
    r := Some(ParsedCommand(verb, Instructions(firstLineExtra, Join(following, "\n"))));
  }

  // The line scanner.
  method FindCommand(lines: seq<string>) returns (commandIndex: int)
    ensures FirstSpeaking(Kinds(lines), 0) == if commandIndex == -1 then None else Some(commandIndex)
    ensures -1 <= commandIndex < |lines|
  {
    ghost var kinds := Kinds(lines);
    var inFence := false;
    var i := 0;
    while i < |lines|
      invariant 0 <= i <= |lines|
      invariant inFence == InFence(kinds, i)
      invariant FirstSpeaking(kinds, 0) == FirstSpeaking(kinds, i)
    {
      var kind := KindOf(lines[i]);
      KindsAt(lines, i);
      if kind == Fence {
        inFence := !inFence;
      } else if !inFence && kind == Speech {
        return i;
      }
      i := i + 1;
    }
    return -1;
  }

  method ParseCommand(body: Option<string>) returns (r: Option<ParsedCommand>)
    ensures r == Parsed(body)
  {
    if body.None? || |body.value| == 0 {
      return None;
    }
    var lines := Lines(body.value);
    var commandIndex := FindCommand(lines);
    if commandIndex == -1 {
      return None;
    }
    r := ReadCommandLine(lines[commandIndex], lines[commandIndex + 1..]);
  }

  /* ---- The pattern, as a pattern ---- */

  // `s` splits into a token and, unless nothing follows it, white space and the rest of one line.
  predicate Splits(s: string, token: string, gap: string, rest: string) {
    && s == token + gap + rest && token != []
    && NoSpace(token) && AllSpace(gap) && OnOneLine(rest)
    && (gap == [] ==> rest == [])
  }

  lemma {:induction false} TokenOfSplit(token: string, more: string)
    requires NoSpace(token) && (more == [] || IsSpace(more[0]))
    ensures Token(token + more) == token
  {
    if token == [] {
      assert token + more == more;
    } else {
      assert (token + more)[1..] == token[1..] + more;
      TokenOfSplit(token[1..], more);
    }
  }

  lemma {:induction false} GapTrimmed(gap: string, rest: string)
    requires AllSpace(gap)
    ensures TrimStart(gap + rest) == TrimStart(rest)
  {
    if gap == [] {
      assert gap + rest == rest;
    } else {
      assert (gap + rest)[1..] == gap[1..] + rest;
      GapTrimmed(gap[1..], rest);
    }
  }

  // However white space is shared out between the gap and the rest, the pattern captures the same.
  lemma SplitsMatch(s: string, token: string, gap: string, rest: string)
    requires Splits(s, token, gap, rest)
    ensures MatchHead(s) == Some(Head(token, TrimStart(rest)))
  {
    assert s == token + (gap + rest);
    TokenOfSplit(token, gap + rest);
    assert s[|token|..] == gap + rest;
    GapTrimmed(gap, rest);
    var cut := TrimStartCuts(rest);
  }

  // The pattern matches exactly the texts that split that way.
  lemma MatchesIffSplits(s: string)
    ensures MatchHead(s).Some? <==> exists token, gap, rest :: Splits(s, token, gap, rest)
  {
    forall token, gap, rest | Splits(s, token, gap, rest) ensures MatchHead(s).Some? {
      SplitsMatch(s, token, gap, rest);
    }
    if MatchHead(s).Some? {
      var token, gap, rest := SplitOfMatch(s);
    }
  }

  lemma SplitOfMatch(s: string) returns (token: string, gap: string, rest: string)
    requires MatchHead(s).Some?
    ensures Splits(s, token, gap, rest)
  {
    var tail := TokenCuts(s);
    assert s[|Token(s)|..] == tail;
    gap := TrimStartCuts(tail);
    token, rest := Token(s), TrimStart(tail);
    assert s == token + gap + rest;
  }

  /* ---- The command line, spelled out ---- */

  // The line is a slash, a token and the rest of it.
  predicate SaysAfterSlash(line: string, token: string, gap: string, rest: string) {
    Trim(line) == "/" + (token + gap + rest) && Splits(token + gap + rest, token, gap, rest)
  }

  // A line is a command exactly when it is a slash and "omgr", in any capitalisation, alone or followed by
  // white space and more.
  lemma CommandIffAddressed(line: string, following: seq<string>)
    ensures ReadCommand(line, following).Some? <==>
              exists token, gap, rest :: SaysAfterSlash(line, token, gap, rest) && Lower(token) == "omgr"
  {
    var commandLine := Trim(line);
    forall token, gap, rest | SaysAfterSlash(line, token, gap, rest) && Lower(token) == "omgr"
      ensures ReadCommand(line, following).Some?
    {
      assert commandLine[1..] == token + gap + rest;
      SplitsMatch(commandLine[1..], token, gap, rest);
    }
    if ReadCommand(line, following).Some? {
      var token, gap, rest := SplitOfMatch(commandLine[1..]);
      SplitsMatch(commandLine[1..], token, gap, rest);
      assert commandLine == "/" + commandLine[1..];
      assert SaysAfterSlash(line, token, gap, rest);
    }
  }

  // The extra text and the text below, on lines of their own if both are there, trimmed.
  lemma InstructionsSay(extra: string, below: string)
    ensures extra == "" ==> Instructions(extra, below) == Trim(below)
    ensures below == "" ==> Instructions(extra, below) == Trim(extra)
    ensures extra != "" && below != "" ==> Instructions(extra, below) == Trim(extra + "\n" + below)
  {
  }

  lemma ReadsRest(line: string, following: seq<string>, token: string, gap: string, rest: string)
    requires SaysAfterSlash(line, token, gap, rest) && Lower(token) == "omgr"
    ensures var (verb, extra) := FirstExtra(Trim(rest));
            ReadCommand(line, following) == Some(ParsedCommand(verb, Instructions(extra, Join(following, "\n"))))
  {
    assert Trim(line)[1..] == token + gap + rest;
    SplitsMatch(token + gap + rest, token, gap, rest);
    TrimAgain(rest);
  }

  lemma VerbRead(remainder: string, verb: string, gap: string, extra: string)
    requires Splits(remainder, verb, gap, extra)
    ensures FirstExtra(remainder) ==
              if Lower(verb) == "implement" then (Some(Implement), Trim(extra)) else (None, remainder)
  {
    SplitsMatch(remainder, verb, gap, extra);
    TrimAgain(extra);
  }

  // What it says: the verb if the first token after the keyword is "implement", in any capitalisation,
  // and as instructions the rest of the line and the lines below.
  lemma CommandSays(line: string, following: seq<string>, token: string, gap: string, rest: string)
    requires SaysAfterSlash(line, token, gap, rest) && Lower(token) == "omgr"
    ensures forall verb, g, extra :: Splits(Trim(rest), verb, g, extra) && Lower(verb) == "implement" ==>
              ReadCommand(line, following)
                == Some(ParsedCommand(Some(Implement), Instructions(Trim(extra), Join(following, "\n"))))
    ensures (forall verb, g, extra :: Splits(Trim(rest), verb, g, extra) ==> Lower(verb) != "implement") ==>
              ReadCommand(line, following)
                == Some(ParsedCommand(None, Instructions(Trim(rest), Join(following, "\n"))))
  {
    ReadsRest(line, following, token, gap, rest);
    forall verb, g, extra | Splits(Trim(rest), verb, g, extra)
      ensures FirstExtra(Trim(rest)) ==
                if Lower(verb) == "implement" then (Some(Implement), Trim(extra)) else (None, Trim(rest))
    {
      VerbRead(Trim(rest), verb, g, extra);
    }
    if MatchHead(Trim(rest)).Some? {
      var verb, g, extra := SplitOfMatch(Trim(rest));
    }
  }

  /* ---- What may stand in front ---- */

  // Nothing in these lines speaks, and no fence is left open.
  predicate Silent(kinds: seq<Kind>) {
    (forall i :: 0 <= i < |kinds| ==> !Speaks(kinds, i)) && !InFence(kinds, |kinds|)
  }

  lemma {:induction false} FencesPrefix(a: seq<Kind>, b: seq<Kind>, n: nat)
    requires n <= |a|
    ensures Fences(a + b, n) == Fences(a, n)
  {
    if n > 0 {
      FencesPrefix(a, b, n - 1);
    }
  }

  lemma {:induction false} FencesConcat(a: seq<Kind>, b: seq<Kind>, n: nat)
    requires n <= |b|
    ensures Fences(a + b, |a| + n) == Fences(a, |a|) + Fences(b, n)
  {
    if n == 0 {
      FencesPrefix(a, b, |a|);
    } else {
      FencesConcat(a, b, n - 1);
    }
  }

  function Shifted(r: Option<nat>, offset: nat): Option<nat> {
    if r.Some? then Some(offset + r.value) else None
  }

  lemma {:induction false} SpeaksAfter(a: seq<Kind>, b: seq<Kind>, from: nat)
    requires !InFence(a, |a|) && from <= |b|
    ensures FirstSpeaking(a + b, |a| + from) == Shifted(FirstSpeaking(b, from), |a|)
    decreases |b| - from
  {
    if from < |b| {
      FencesConcat(a, b, from);
      SpeaksAfter(a, b, from + 1);
    }
  }

  lemma {:induction false} SkipsSilence(a: seq<Kind>, b: seq<Kind>, from: nat)
    requires Silent(a) && from <= |a|
    ensures FirstSpeaking(a + b, from) == FirstSpeaking(a + b, |a|)
    decreases |a| - from
  {
    if from < |a| {
      FencesPrefix(a, b, from);
      assert !Speaks(a, from);
      SkipsSilence(a, b, from + 1);
    }
  }

  lemma CommandShifted(a: seq<Kind>, b: seq<Kind>)
    requires Silent(a)
    ensures FirstSpeaking(a + b, 0) == Shifted(FirstSpeaking(b, 0), |a|)
  {
    SkipsSilence(a, b, 0);
    SpeaksAfter(a, b, 0);
  }

  lemma LocatedAfter(ka: seq<Kind>, kb: seq<Kind>, a: seq<string>, b: seq<string>)
    requires |ka| == |a| && |kb| == |b| && Silent(ka)
    ensures LocateIn(ka + kb, a + b) == LocateIn(kb, b)
  {
    CommandShifted(ka, kb);
    var first := FirstSpeaking(kb, 0);
    if first.Some? {
      assert (a + b)[|a| + first.value] == b[first.value];
      assert (a + b)[|a| + first.value + 1..] == b[first.value + 1..];
    }
  }

  lemma SilenceInFront(a: seq<string>, b: seq<string>)
    requires Silent(Kinds(a))
    ensures Locate(a + b) == Locate(b)
  {
    KindsConcat(a, b);
    LocatedAfter(Kinds(a), Kinds(b), a, b);
  }

  /* ---- The probe: the bare command ---- */

  const BARE := "/omgr"

  lemma BareIsTrimmed()
    ensures TrimStart(BARE) == BARE && TrimEnd(BARE) == BARE
  {
  }

  lemma BareIsSpeech()
    ensures Kinds([BARE]) == [Speech]
  {
    BareIsTrimmed();
    assert BARE[0] == '/';
  }

  lemma BareIsOneLine()
    ensures Lines(BARE) == [BARE]
  {
    OneLineAlone(BARE);
  }

  lemma TriggerMatches()
    ensures MatchHead(TRIGGER_KEYWORD) == Some(Head(TRIGGER_KEYWORD, ""))
  {
    assert TRIGGER_KEYWORD + "" == TRIGGER_KEYWORD;
    TokenOfSplit(TRIGGER_KEYWORD, "");
  }

  lemma TriggerIsLower()
    ensures Lower(TRIGGER_KEYWORD) == TRIGGER_KEYWORD
  {
    assert Lower("gr") == "gr";
    assert Lower("mgr") == "mgr";
  }

  lemma BareReads()
    ensures ReadCommand(BARE, []) == Some(ParsedCommand(None, ""))
  {
    BareIsTrimmed();
    assert BARE[1..] == TRIGGER_KEYWORD;
    TriggerMatches();
    TriggerIsLower();
    assert Trim("") == "" && MatchHead("") == None && Join([], "\n") == "";
  }

  // Alone, it parses to an empty command.
  lemma BareParses()
    ensures Parsed(Some(BARE)) == Some(ParsedCommand(None, ""))
  {
    BareIsOneLine();
    BareIsSpeech();
    BareReads();
    assert Fences([Speech], 0) == 0;
    assert FirstSpeaking([Speech], 0) == Some(0);
    assert [BARE][1..] == [];
  }

  lemma {:induction false} JoinHoldsLast(parts: seq<string>, last: string, c: char)
    requires c in last
    ensures c in Join(parts + [last], "\n")
  {
    if parts != [] {
      assert (parts + [last])[1..] == parts[1..] + [last];
      JoinHoldsLast(parts[1..], last, c);
    }
  }

  lemma InstructionsNotEmpty(extra: string, following: string)
    requires '/' in following
    ensures Instructions(extra, following) != []
  {
    TrimsToNothing(following);
    TrimsToNothing(extra + "\n" + following);
  }

  // Followed by the probe, any command has instructions.
  lemma NotBare(line: string, following: seq<string>)
    ensures ReadCommand(line, following + [BARE]) != Some(ParsedCommand(None, ""))
  {
    JoinHoldsLast(following, BARE, '/');
    var joined := Join(following + [BARE], "\n");
    forall extra ensures Instructions(extra, joined) != [] {
      InstructionsNotEmpty(extra, joined);
    }
  }

  lemma {:induction false} SpeaksBefore(a: seq<Kind>, b: seq<Kind>, from: nat)
    requires from <= |a|
    ensures FirstSpeaking(a + b, from) ==
              if FirstSpeaking(a, from).Some? then FirstSpeaking(a, from) else FirstSpeaking(a + b, |a|)
    decreases |a| - from
  {
    if from < |a| {
      FencesPrefix(a, b, from);
      SpeaksBefore(a, b, from + 1);
    }
  }

  lemma NoiseLocates(kinds: seq<Kind>, a: seq<string>)
    requires |kinds| == |a| && !Silent(kinds)
    ensures var found := LocateIn(kinds + [Speech], a + [BARE]);
            found.None? || exists line, following :: found == Some(Found(line, following + [BARE]))
  {
    SpeaksBefore(kinds, [Speech], 0);
    CommandLineInTheOpen(kinds, 0);
    var first := FirstSpeaking(kinds, 0);
    if first.Some? {
      var k := first.value;
      assert (a + [BARE])[k + 1..] == a[k + 1..] + [BARE];
      assert LocateIn(kinds + [Speech], a + [BARE]) == Some(Found(a[k], a[k + 1..] + [BARE]));
    } else {
      FencesPrefix(kinds, [Speech], |a|);
      assert !Speaks(kinds + [Speech], |a|);
    }
  }

  // A prefix that speaks, or leaves a fence open, changes what the probe means.
  lemma NoiseChangesTheProbe(a: seq<string>)
    requires !Silent(Kinds(a))
    ensures ReadFound(Locate(a + [BARE])) != Some(ParsedCommand(None, ""))
  {
    BareIsSpeech();
    KindsConcat(a, [BARE]);
    NoiseLocates(Kinds(a), a);
    var found := Locate(a + [BARE]);
    if found.Some? {
      var line, following :| found == Some(Found(line, following + [BARE]));
      NotBare(line, following);
    }
  }

  ghost predicate Ignorable(prefix: string) {
    forall body :: Parsed(Some(prefix + body)) == Parsed(Some(body))
  }

  // Whole lines put in front of a body change no result, whatever the body, exactly when none of
  // them speaks and every fence they open they close.
  lemma PrefixIgnorableIffSilent(prefix: string)
    requires EndsLine(prefix)
    ensures Ignorable(prefix) <==> Silent(Kinds(Front(Lines(prefix))))
  {
    LinesOfPrefix(prefix, BARE);
    var a := Front(Lines(prefix));
    if Silent(Kinds(a)) {
      forall body ensures Parsed(Some(prefix + body)) == Parsed(Some(body)) {
        LinesOfPrefix(prefix, body);
        SilenceInFront(a, Lines(body));
      }
    } else {
      NoiseChangesTheProbe(a);
      BareIsOneLine();
      BareParses();
      assert Parsed(Some(prefix + BARE)) != Parsed(Some(BARE));
    }
  }

  /* ---- Preambles ---- */

  datatype Block =
    | BlankLine(line: string)
    | QuoteLine(line: string)
    | Fenced(opening: string, inside: seq<string>, closing: string)

  predicate BlockOk(b: Block) {
    match b
    case BlankLine(line) => KindOf(line) == Blank
    case QuoteLine(line) => KindOf(line) == Quote
    case Fenced(opening, inside, closing) =>
      KindOf(opening) == Fence && KindOf(closing) == Fence && forall line :: line in inside ==> KindOf(line) != Fence
  }

  function BlockLines(b: Block): seq<string> {
    match b
    case BlankLine(line) => [line]
    case QuoteLine(line) => [line]
    case Fenced(opening, inside, closing) => [opening] + inside + [closing]
  }

  function AllLines(blocks: seq<Block>): seq<string> {
    if blocks == [] then [] else BlockLines(blocks[0]) + AllLines(blocks[1..])
  }

  lemma {:induction false} FencelessInside(inside: seq<Kind>, n: nat)
    requires n <= |inside| && Fence !in inside
    ensures Fences([Fence] + inside + [Fence], 1 + n) == 1
  {
    if n == 0 {
      assert Fences([Fence] + inside + [Fence], 0) == 0;
    } else {
      FencelessInside(inside, n - 1);
      assert ([Fence] + inside + [Fence])[n] == inside[n - 1];
    }
  }

  lemma FencedIsSilent(inside: seq<Kind>)
    requires Fence !in inside
    ensures Silent([Fence] + inside + [Fence])
  {
    var kinds := [Fence] + inside + [Fence];
    FencelessInside(inside, |inside|);
    forall i | 0 <= i < |kinds| ensures !Speaks(kinds, i) {
      if 0 < i <= |inside| { FencelessInside(inside, i - 1); }
    }
  }

  lemma {:induction false} KindsInside(lines: seq<string>)
    requires forall line :: line in lines ==> KindOf(line) != Fence
    ensures Fence !in Kinds(lines)
  {
    if lines != [] {
      KindsInside(lines[1..]);
    }
  }

  lemma BlockIsSilent(b: Block)
    requires BlockOk(b)
    ensures Silent(Kinds(BlockLines(b)))
  {
    match b
    case Fenced(opening, inside, closing) =>
      KindsInside(inside);
      FencedIsSilent(Kinds(inside));
      KindsConcat([opening] + inside, [closing]);
      KindsConcat([opening], inside);
      assert Kinds([opening]) == [Fence] && Kinds([closing]) == [Fence];
    case _ =>
      var kinds := Kinds(BlockLines(b));
      assert |kinds| == 1 && Fences(kinds, 0) == 0 && Fences(kinds, 1) == 0;
  }

  // Any number of blank lines, quote lines and closed fenced blocks may stand in front of a body, with
  // either kind of line break, without changing its result.
  lemma {:induction false} PreambleIsIgnored(blocks: seq<Block>, eol: string, body: string)
    requires Eol(eol) && forall b :: b in blocks ==> BlockOk(b)
    requires forall line :: line in AllLines(blocks) ==> OneLine(line, eol)
    ensures Parsed(Some(Written(AllLines(blocks), eol) + body)) == Parsed(Some(body))
  {
    LinesOfWritten(AllLines(blocks), eol, body);
    BlocksAreIgnored(blocks, Lines(body));
  }

  lemma FirstBlock(blocks: seq<Block>, lines: seq<string>)
    requires blocks != []
    ensures AllLines(blocks) + lines == BlockLines(blocks[0]) + (AllLines(blocks[1..]) + lines)
  {
  }

  lemma {:induction false} BlocksAreIgnored(blocks: seq<Block>, lines: seq<string>)
    requires forall b :: b in blocks ==> BlockOk(b)
    ensures Locate(AllLines(blocks) + lines) == Locate(lines)
  {
    if blocks == [] {
      assert AllLines(blocks) + lines == lines;
    } else {
      BlocksAreIgnored(blocks[1..], lines);
      BlockIsSilent(blocks[0]);
      SilenceInFront(BlockLines(blocks[0]), AllLines(blocks[1..]) + lines);
      FirstBlock(blocks, lines);
    }
  }
}
