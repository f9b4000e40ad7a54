/**
 The string operations the program relies on, as JavaScript defines them.
 */
module Text {

  // What `trim` strips and `\s` matches.
  predicate IsSpace(c: char) {
    || '\U{0009}' <= c <= '\U{000d}' || c == ' ' || c == '\U{00a0}' || c == '\U{1680}'
    || '\U{2000}' <= c <= '\U{200a}' || c == '\U{2028}' || c == '\U{2029}'
    || c == '\U{202f}' || c == '\U{205f}' || c == '\U{3000}' || c == '\U{feff}'
  }

  // What `.` does not match.
  predicate IsLineTerminator(c: char) {
    c == '\n' || c == '\r' || c == '\U{2028}' || c == '\U{2029}'
  }

  function TrimStart(s: string): string {
    if s != [] && IsSpace(s[0]) then TrimStart(s[1..]) else s
  }

  function TrimEnd(s: string): string {
    if s != [] && IsSpace(s[|s| - 1]) then TrimEnd(s[..|s| - 1]) else s
  }

  function Trim(s: string): string {
    TrimEnd(TrimStart(s))
  }

  // The longest prefix without white space.
  function Token(s: string): (r: string)
    ensures |r| <= |s|
  {
    if s != [] && !IsSpace(s[0]) then [s[0]] + Token(s[1..]) else []
  }

  predicate AllSpace(s: string) {
    forall c :: c in s ==> IsSpace(c)
  }

  predicate NoSpace(s: string) {
    forall c :: c in s ==> !IsSpace(c)
  }

  lemma {:induction false} TrimStartCuts(s: string) returns (gap: string)
    ensures s == gap + TrimStart(s) && AllSpace(gap)
    ensures TrimStart(s) == [] || !IsSpace(TrimStart(s)[0])
  {
    if s != [] && IsSpace(s[0]) {
      var g := TrimStartCuts(s[1..]);
      gap := [s[0]] + g;
    } else {
      gap := [];
    }
  }

  lemma {:induction false} TrimEndCuts(s: string) returns (gap: string)
    ensures s == TrimEnd(s) + gap && AllSpace(gap)
    ensures TrimEnd(s) == [] || !IsSpace(TrimEnd(s)[|TrimEnd(s)| - 1])
  {
    if s != [] && IsSpace(s[|s| - 1]) {
      var g := TrimEndCuts(s[..|s| - 1]);
      gap := g + [s[|s| - 1]];
    } else {
      gap := [];
    }
  }

  lemma {:induction false} TokenCuts(s: string) returns (rest: string)
    ensures s == Token(s) + rest && NoSpace(Token(s))
    ensures rest == [] || IsSpace(rest[0])
  {
    if s != [] && !IsSpace(s[0]) {
      rest := TokenCuts(s[1..]);
    } else {
      rest := s;
    }
  }

  // A text trims to nothing exactly when it is white space throughout.
  lemma TrimsToNothing(s: string)
    ensures Trim(s) == [] <==> AllSpace(s)
  {
    var a := TrimStartCuts(s);
    var t := TrimStart(s);
    var b := TrimEndCuts(t);
    if Trim(s) == [] {
      assert t == b;
    } else {
      assert t != [] && t[0] in s;
    }
  }

  lemma {:induction false} TrimStartOfPadded(before: string, core: string)
    requires AllSpace(before) && (core == [] || !IsSpace(core[0]))
    ensures TrimStart(before + core) == core
  {
    if before == [] {
      assert before + core == core;
    } else {
      assert (before + core)[1..] == before[1..] + core;
      TrimStartOfPadded(before[1..], core);
    }
  }

  lemma {:induction false} TrimEndOfPadded(core: string, after: string)
    requires AllSpace(after) && (core == [] || !IsSpace(core[|core| - 1]))
    ensures TrimEnd(core + after) == core
  {
    if after == [] {
      assert core + after == core;
    } else {
      assert (core + after)[..|core + after| - 1] == core + after[..|after| - 1];
      TrimEndOfPadded(core, after[..|after| - 1]);
    }
  }

  // Trimming takes off the white space at both ends and nothing else.
  lemma TrimOfPadded(before: string, core: string, after: string)
    requires AllSpace(before) && AllSpace(after)
    requires core != [] && !IsSpace(core[0]) && !IsSpace(core[|core| - 1])
    ensures Trim(before + core + after) == core
  {
    assert before + core + after == before + (core + after);
    TrimStartOfPadded(before, core + after);
    TrimEndOfPadded(core, after);
  }

  lemma TrimAgain(s: string)
    ensures Trim(TrimStart(s)) == Trim(s)
  {
    var gap := TrimStartCuts(s);
    var t := TrimStart(s);
    assert t == [] || !IsSpace(t[0]);
  }

  // Lower case, as far as it can matter to a comparison with an ASCII word free of 'k' (the one
  // ASCII letter that is also the lower case of a non-ASCII one, the Kelvin sign).
  function LowerChar(c: char): char {
    if 'A' <= c <= 'Z' then c + 32 as char else c
  }

  function Lower(s: string): string {
    if s == [] then [] else [LowerChar(s[0])] + Lower(s[1..])
  }

  lemma {:induction false} LowerSays(s: string)
    ensures |Lower(s)| == |s|
    ensures forall i :: 0 <= i < |s| ==>
              if 'A' <= s[i] <= 'Z' then Lower(s)[i] as int == s[i] as int + 32 else Lower(s)[i] == s[i]
  {
    if s != [] {
      LowerSays(s[1..]);
    }
  }

  // Of the ASCII characters, tab to carriage return and the space are white, and the others are not.
  lemma AsciiSpaces(c: char)
    requires c <= '~'
    ensures IsSpace(c) <==> c == ' ' || c == '\t' || c == '\n' || c == '\U{000b}' || c == '\U{000c}' || c == '\r'
  {
  }

  predicate StartsWith(s: string, p: string) {
    |p| <= |s| && s[..|p|] == p
  }

  /* ---- Lines ---- */

  // How many characters the line break at the head of `s` takes, 0 if there is none.
  function Break(s: string): nat {
    if |s| > 0 && s[0] == '\n' then 1 else if |s| > 1 && s[0] == '\r' && s[1] == '\n' then 2 else 0
  }

  function Longer(c: char, lines: seq<string>): seq<string>
    requires lines != []
  {
    [[c] + lines[0]] + lines[1..]
  }

  // `split(/\r?\n/)`
  function Lines(s: string): (r: seq<string>)
    ensures r != []
  {
    if s == [] then [[]]
    else if Break(s) > 0 then [[]] + Lines(s[Break(s)..])
    else Longer(s[0], Lines(s[1..]))
  }

  function Join(parts: seq<string>, sep: string): string {
    if parts == [] then "" else if |parts| == 1 then parts[0] else parts[0] + sep + Join(parts[1..], sep)
  }

  predicate EndsLine(s: string) {
    s != [] && s[|s| - 1] == '\n'
  }

  lemma BreakOfPrefix(a: string, b: string)
    requires EndsLine(a)
    ensures Break(a + b) == Break(a) <= |a|
    ensures Break(a) == 0 ==> |a| > 1
    ensures (a + b)[Break(a)..] == a[Break(a)..] + b
    ensures (a + b)[1..] == a[1..] + b
    ensures (a + b)[0] == a[0]
    ensures Break(a) < |a| ==> EndsLine(a[Break(a)..])
    ensures |a| > 1 ==> EndsLine(a[1..])
  {
  }

  function Front(lines: seq<string>): seq<string>
    requires lines != []
  {
    lines[..|lines| - 1]
  }

  predicate EmptyAtEnd(lines: seq<string>) {
    |lines| >= 2 && lines[|lines| - 1] == []
  }

  lemma LongerFront(c: char, lines: seq<string>, more: seq<string>)
    requires EmptyAtEnd(lines)
    ensures EmptyAtEnd(Longer(c, lines))
    ensures Longer(c, Front(lines) + more) == Front(Longer(c, lines)) + more
  {
  }

  lemma FirstBreak(s: string)
    requires Break(s) > 0
    ensures Lines(s) == [""] + Lines(s[Break(s)..])
  {
  }

  lemma NoBreak(s: string)
    requires s != [] && Break(s) == 0
    ensures Lines(s) == Longer(s[0], Lines(s[1..]))
  {
  }

  lemma FrontAfter(lines: seq<string>, more: seq<string>)
    requires lines != []
    ensures Front([""] + lines) + more == [""] + (Front(lines) + more)
  {
  }

  lemma LastBreak(nothing: string, b: string)
    requires nothing == ""
    ensures nothing + b == b
    ensures EmptyAtEnd([""] + Lines(nothing)) && Front([""] + Lines(nothing)) == [""]
  {
  }

  // A text that ends in a line break has an empty last line. Put in front of another text, it puts
  // its other lines in front of that text's lines.
  lemma {:induction false} LinesOfPrefix(a: string, b: string)
    requires EndsLine(a)
    ensures EmptyAtEnd(Lines(a)) && Lines(a + b) == Front(Lines(a)) + Lines(b)
    decreases |a|
  {
    BreakOfPrefix(a, b);
    var n := Break(a);
    if n == 0 {
      LinesOfPrefix(a[1..], b);
      LongerFront(a[0], Lines(a[1..]), Lines(b));
      NoBreak(a);
      NoBreak(a + b);
    } else {
      FirstBreak(a);
      FirstBreak(a + b);
      if n < |a| {
        LinesOfPrefix(a[n..], b);
        FrontAfter(Lines(a[n..]), Lines(b));
      } else {
        LastBreak(a[n..], b);
      }
    }
  }

  lemma {:induction false} OneLineAlone(s: string)
    requires '\n' !in s
    ensures Lines(s) == [s]
  {
    if s != [] {
      OneLineAlone(s[1..]);
      NoBreak(s);
      assert s == [s[0]] + s[1..];
    }
  }

  /* ---- Writing lines ---- */

  // Every line with its line break.
  function Written(lines: seq<string>, eol: string): string {
    if lines == [] then "" else lines[0] + eol + Written(lines[1..], eol)
  }

  predicate Eol(s: string) {
    s == "\n" || s == "\r\n"
  }

  // A line that stays one line when `eol` and more text follow it.
  predicate OneLine(line: string, eol: string) {
    '\n' !in line && (eol == "\n" && line != "" ==> line[|line| - 1] != '\r')
  }

  lemma {:induction false} LineThenRest(line: string, eol: string, rest: string)
    requires Eol(eol) && OneLine(line, eol)
    ensures Lines(line + eol + rest) == [line] + Lines(rest)
  {
    var s := line + eol + rest;
    if line == "" {
      assert s[|eol|..] == rest;
      FirstBreak(s);
    } else {
      assert s[0] == line[0] && (|line| > 1 ==> s[1] == line[1]);
      assert |line| == 1 ==> s[1] == eol[0];
      assert s[1..] == line[1..] + eol + rest;
      LineThenRest(line[1..], eol, rest);
      NoBreak(s);
      assert line == [line[0]] + line[1..];
    }
  }

  lemma Regroup<T>(s: seq<T>, more: seq<T>)
    requires s != []
    ensures [s[0]] + (s[1..] + more) == s + more
  {
  }

  lemma WrittenFirst(lines: seq<string>, eol: string, rest: string)
    requires lines != []
    ensures Written(lines, eol) + rest == lines[0] + eol + (Written(lines[1..], eol) + rest)
  {
  }

  // Reading lines back from a text gives the lines written, and a last one for what follows.
  lemma {:induction false} LinesOfWritten(lines: seq<string>, eol: string, rest: string)
    requires Eol(eol) && forall line :: line in lines ==> OneLine(line, eol)
    ensures Lines(Written(lines, eol) + rest) == lines + Lines(rest)
  {
    if lines == [] {
      assert Written(lines, eol) + rest == rest;
      assert lines + Lines(rest) == Lines(rest);
    } else {
      var more := Written(lines[1..], eol) + rest;
      WrittenFirst(lines, eol, rest);
      LineThenRest(lines[0], eol, more);
      LinesOfWritten(lines[1..], eol, rest);
      Regroup(lines, Lines(rest));
    }
  }
}
