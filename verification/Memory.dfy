/** Long-term memory files: the printer, the parser, the normalising reconciler, and the
    guarded writes that depend on printing and parsing being inverse. */
module Memory {
  import opened Common
  import opened Messages

  // ---------------------------------------------------------------- text

  predicate Space(c: char) {
    var n := c as int;
    || 0x09 <= n <= 0x0D || 0x1C <= n <= 0x20 || n == 0x85 || n == 0xA0 || n == 0x1680
    || 0x2000 <= n <= 0x200A || n == 0x2028 || n == 0x2029 || n == 0x202F || n == 0x205F || n == 0x3000
  }

  /** The characters at which lines are split; all of them are spaces. */
  predicate Break(c: char)
    ensures Break(c) ==> Space(c)
  {
    var n := c as int;
    0x0A <= n <= 0x0D || 0x1C <= n <= 0x1E || n == 0x85 || n == 0x2028 || n == 0x2029
  }

  predicate Blank(s: string) {
    forall i :: 0 <= i < |s| ==> Space(s[i])
  }

  predicate OneLine(s: string) {
    forall i :: 0 <= i < |s| ==> !Break(s[i])
  }

  function Strip(s: string): (r: string)
    decreases |s|
  {
    if s == [] then []
    else if Space(s[0]) then Strip(s[1..])
    else if Space(Last(s)) then Strip(s[..|s| - 1])
    else s
  }

  /** An entry that a file can hold: one line, not empty, no space at its ends. */
  predicate Clean(s: string) {
    s != [] && OneLine(s) && !Space(s[0]) && !Space(Last(s))
  }

  lemma {:induction false} StripCleans(s: string)
    requires OneLine(s)
    ensures if Blank(s) then Strip(s) == [] else Clean(Strip(s))
    decreases |s|
  {
    if s != [] {
      if Space(s[0]) {
        assert s == [s[0]] + s[1..];
        assert Blank(s) <==> Blank(s[1..]) by {
          if Blank(s[1..]) {
            forall i | 0 <= i < |s| ensures Space(s[i]) { assert i > 0 ==> s[i] == s[1..][i - 1]; }
          }
        }
        StripCleans(s[1..]);
      } else if Space(Last(s)) {
        assert !Blank(s[..|s| - 1]) by { assert s[..|s| - 1][0] == s[0]; }
        StripCleans(s[..|s| - 1]);
      }
    }
  }

  lemma StripKeepsClean(s: string)
    requires Clean(s)
    ensures Strip(s) == s && !Blank(s)
  {
  }

  /** Stripping takes the spaces at both ends and nothing else. */
  lemma {:induction false} StripTakesEnds(s: string) returns (i: nat, j: nat)
    ensures i <= j <= |s| && Strip(s) == s[i..j] && Blank(s[..i]) && Blank(s[j..])
    ensures Strip(s) != [] ==> !Space(Strip(s)[0]) && !Space(Last(Strip(s)))
    decreases |s|
  {
    if s == [] {
      return 0, 0;
    } else if Space(s[0]) {
      i, j := StripTakesEnds(s[1..]);
      SpaceInFront(s, i, j);
      i, j := i + 1, j + 1;
    } else if Space(Last(s)) {
      i, j := StripTakesEnds(s[..|s| - 1]);
      SpaceBehind(s, i, j);
    } else {
      i, j := 0, |s|;
      assert s[i..j] == s && s[..i] == [] && s[j..] == [];
    }
    hide Space;
  }

  lemma SpaceInFront(s: string, i: nat, j: nat)
    requires s != [] && Space(s[0]) && i <= j < |s| && Blank(s[1..][..i]) && Blank(s[1..][j..])
    ensures Blank(s[..i + 1]) && Blank(s[j + 1..]) && s[1..][i..j] == s[i + 1..j + 1]
  {
    hide Space;
    assert s[1..][j..] == s[j + 1..];
    assert s[..i + 1] == [s[0]] + s[1..][..i];
  }

  lemma SpaceBehind(s: string, i: nat, j: nat)
    requires s != [] && Space(Last(s)) && i <= j < |s|
    requires Blank(s[..|s| - 1][..i]) && Blank(s[..|s| - 1][j..])
    ensures Blank(s[..i]) && Blank(s[j..]) && s[..|s| - 1][i..j] == s[i..j]
  {
    hide Space;
    var front := s[..|s| - 1];
    assert front[..i] == s[..i] && s[j..] == front[j..] + [Last(s)];
  }

  function FirstBreak(s: string): (n: nat)
    ensures n <= |s| && forall i :: 0 <= i < n ==> !Break(s[i])
    ensures n < |s| ==> Break(s[n])
  {
    if s == [] || Break(s[0]) then 0 else FirstBreak(s[1..]) + 1
  }

  /** Python's splitlines; a carriage return and a line feed are one break. */
  function SplitLines(s: string): (lines: seq<string>)
    ensures forall i :: 0 <= i < |lines| ==> OneLine(lines[i])
    decreases |s|
  {
    if s == [] then []
    else
      var n := FirstBreak(s);
      if n == |s| then [s]
      else
        var skip := if s[n] == '\r' && n + 1 < |s| && s[n + 1] == '\n' then 2 else 1;
        [s[..n]] + SplitLines(s[n + skip..])
  }

  /** Lines, each with its line feed. */
  function Text(lines: seq<string>): (s: string) {
    if lines == [] then [] else lines[0] + "\n" + Text(lines[1..])
  }

  lemma {:induction false} TextConcat(a: seq<string>, b: seq<string>)
    ensures Text(a + b) == Text(a) + Text(b)
  {
    if a == [] {
      assert a + b == b;
    } else {
      assert (a + b)[1..] == a[1..] + b;
      TextConcat(a[1..], b);
    }
  }

  lemma {:induction false} FirstBreakBehind(line: string, c: char, rest: string)
    requires OneLine(line) && Break(c)
    ensures FirstBreak(line + [c] + rest) == |line|
  {
    var s := line + [c] + rest;
    if line != [] {
      assert s[0] == line[0] && s[1..] == line[1..] + [c] + rest;
      FirstBreakBehind(line[1..], c, rest);
    } else {
      assert s[0] == c;
    }
  }

  /** A line ends at the first break behind it, a carriage return takes a line feed behind it
      along, and what has no break is one line. */
  lemma SplitLineBy(line: string, c: char, rest: string)
    requires OneLine(line)
    ensures Break(c) && !(c == '\r' && rest != [] && rest[0] == '\n') ==>
              SplitLines(line + [c] + rest) == [line] + SplitLines(rest)
    ensures SplitLines(line + "\r\n" + rest) == [line] + SplitLines(rest)
    ensures SplitLines(line) == if line == [] then [] else [line]
  {
    if Break(c) && !(c == '\r' && rest != [] && rest[0] == '\n') { SplitAtBreak(line, c, rest); }
    SplitAtReturn(line, rest);
    hide SplitLines, Break;
    OneLineSplit(line);
  }

  lemma OneLineSplit(line: string)
    requires OneLine(line)
    ensures SplitLines(line) == if line == [] then [] else [line]
  {
  }

  lemma SplitAtBreak(line: string, c: char, rest: string)
    requires OneLine(line) && Break(c) && !(c == '\r' && rest != [] && rest[0] == '\n')
    ensures SplitLines(line + [c] + rest) == [line] + SplitLines(rest)
  {
    hide Break;
    FirstBreakBehind(line, c, rest);
    var s := line + [c] + rest;
    assert s[|line|] == c && s[..|line|] == line && s[|line| + 1..] == rest;
    assert rest != [] ==> s[|line| + 1] == rest[0];
  }

  lemma SplitAtReturn(line: string, rest: string)
    requires OneLine(line)
    ensures SplitLines(line + "\r\n" + rest) == [line] + SplitLines(rest)
  {
    var s := line + "\r\n" + rest;
    assert Break('\r');
    hide Break;
    assert s == line + ['\r'] + ("\n" + rest) && s[|line|] == '\r' && s[|line| + 1] == '\n';
    FirstBreakBehind(line, '\r', "\n" + rest);
    assert s[..|line|] == line && s[|line| + 2..] == rest;
  }

  lemma {:induction false} SplitText(lines: seq<string>)
    requires forall i :: 0 <= i < |lines| ==> OneLine(lines[i])
    ensures SplitLines(Text(lines)) == lines
  {
    if lines != [] {
      SplitText(lines[1..]);
      assert Break('\n');
      assert Text(lines) == lines[0] + ['\n'] + Text(lines[1..]);
      hide Text, SplitLines, Break;
      SplitAtBreak(lines[0], '\n', Text(lines[1..]));
      assert lines == [lines[0]] + lines[1..];
    }
  }

  function JoinWith(separator: string, parts: seq<string>): (s: string) {
    if parts == [] then []
    else if |parts| == 1 then parts[0]
    else parts[0] + separator + JoinWith(separator, parts[1..])
  }

  lemma {:induction false} JoinedLines(lines: seq<string>)
    requires lines != []
    ensures JoinWith("\n", lines) + "\n" == Text(lines)
  {
    if |lines| == 1 {
      assert lines[1..] == [];
    } else {
      JoinedLines(lines[1..]);
      assert lines[0] + "\n" + JoinWith("\n", lines[1..]) + "\n" == lines[0] + "\n" + Text(lines[1..]);
    }
  }

  // ---------------------------------------------------------------- documents

  datatype Kind = Preference | Fact | Decision

  datatype Document = Document(preferences: seq<string>, facts: seq<string>, decisions: seq<string>) {
    function Entries(kind: Kind): (r: seq<string>) {
      match kind case Preference => preferences case Fact => facts case Decision => decisions
    }

    function With(kind: Kind, entries: seq<string>): (d: Document) {
      match kind
      case Preference => this.(preferences := entries)
      case Fact => this.(facts := entries)
      case Decision => this.(decisions := entries)
    }
  }

  const EMPTY := Document([], [], [])

  predicate AllClean(entries: seq<string>) {
    forall i :: 0 <= i < |entries| ==> Clean(entries[i])
  }

  predicate CleanDocument(d: Document) {
    AllClean(d.preferences) && AllClean(d.facts) && AllClean(d.decisions)
  }

  function Heading(kind: Kind): (s: string) {
    match kind case Preference => "## Preferences" case Fact => "## Facts" case Decision => "## Decisions"
  }

  const GLOBAL_HEADER := "# Nosis Global Memory"
  const WORKSPACE_HEADER := "# Nosis Workspace Memory"

  // ---------------------------------------------------------------- printing

  function Bullets(entries: seq<string>): (r: seq<string>)
    ensures |r| == |entries|
  {
    if entries == [] then [] else ["- " + entries[0]] + Bullets(entries[1..])
  }

  function Section(kind: Kind, d: Document): (lines: seq<string>) {
    [Heading(kind)] + Bullets(d.Entries(kind))
  }

  function RenderDocument(d: Document): (s: string) {
    JoinWith("\n\n", [JoinWith("\n", Section(Preference, d)), JoinWith("\n", Section(Fact, d)),
                      JoinWith("\n", Section(Decision, d))]) + "\n"
  }

  function Render(header: string, d: Document): (s: string) {
    header + "\n\n" + RenderDocument(d)
  }

  /** The lines of a printed file. */
  function FileLines(header: string, d: Document): (lines: seq<string>) {
    [header, ""] + (Section(Preference, d) + ([""] + (Section(Fact, d) + ([""] + Section(Decision, d)))))
  }

  lemma RenderedLines(header: string, d: Document)
    ensures Render(header, d) == Text(FileLines(header, d))
  {
    hide Section, JoinWith, Text;
    var a, b, c := Section(Preference, d), Section(Fact, d), Section(Decision, d);
    SectionNotEmpty(d);
    JoinedLines(a); JoinedLines(b); JoinedLines(c);
    JoinThree(JoinWith("\n", a), JoinWith("\n", b), JoinWith("\n", c));
    TextConcat([header, ""], a + ([""] + (b + ([""] + c))));
    TextConcat(a, [""] + (b + ([""] + c)));
    TextConcat([""], b + ([""] + c));
    TextConcat(b, [""] + c);
    TextConcat([""], c);
    ShortTexts(header);
    var x, y, z := JoinWith("\n", a), JoinWith("\n", b), JoinWith("\n", c);
    assert header + "\n\n" + (x + "\n\n" + (y + "\n\n" + z) + "\n") ==
           header + "\n\n" + ((x + "\n") + ("\n" + ((y + "\n") + ("\n" + (z + "\n")))));
  }

  /** A printed file, line by line: the header and, each behind an empty line, the three
      headings with their entries. */
  lemma PrintedText(header: string, d: Document)
    ensures Render(header, d) == Text(
              [header, "", "## Preferences"] + Bullets(d.preferences)
              + ["", "## Facts"] + Bullets(d.facts) + ["", "## Decisions"] + Bullets(d.decisions))
  {
    RenderedLines(header, d);
    hide Render, Text, Bullets;
    var a, b, c := Bullets(d.preferences), Bullets(d.facts), Bullets(d.decisions);
    assert FileLines(header, d) ==
           [header, "", "## Preferences"] + a + ["", "## Facts"] + b + ["", "## Decisions"] + c;
  }

  lemma {:induction false} BulletsAre(entries: seq<string>)
    ensures forall i :: 0 <= i < |entries| ==> Bullets(entries)[i] == "- " + entries[i]
  {
    if entries != [] { BulletsAre(entries[1..]); }
  }

  lemma SectionNotEmpty(d: Document)
    ensures Section(Preference, d) != [] && Section(Fact, d) != [] && Section(Decision, d) != []
  {
  }

  lemma JoinThree(a: string, b: string, c: string)
    ensures JoinWith("\n\n", [a, b, c]) == a + "\n\n" + (b + "\n\n" + c)
  {
    assert [a, b, c][1..] == [b, c] && [b, c][1..] == [c];
    assert JoinWith("\n\n", [c]) == c;
    assert JoinWith("\n\n", [b, c]) == b + "\n\n" + c;
  }

  lemma ShortTexts(header: string)
    ensures Text([""]) == "\n" && Text([header, ""]) == header + "\n\n"
  {
    assert [""][1..] == [] && Text([]) == "" && [header, ""][1..] == [""];
    assert "" + "\n" + "" == "\n";
    assert Text([""]) == "\n";
    assert header + "\n" + "\n" == header + "\n\n";
  }

  // ---------------------------------------------------------------- parsing

  datatype Progress = Progress(current: Option<Kind>, seen: set<Kind>, document: Document)

  const START := Progress(None, {}, EMPTY)

  function HeadingKind(line: string): (r: Option<Kind>) {
    if line == Heading(Preference) then Some(Preference)
    else if line == Heading(Fact) then Some(Fact)
    else if line == Heading(Decision) then Some(Decision)
    else None
  }

  predicate IsBullet(line: string) {
    |line| >= 2 && line[..2] == "- "
  }

  function ParseLine(p: Progress, line: string): (r: Result<Progress>) {
    if Blank(line) then Ok(p)
    else if HeadingKind(line).Some? then
      var kind := HeadingKind(line).value;
      if kind in p.seen then Err else Ok(p.(current := Some(kind), seen := p.seen + {kind}))
    else if p.current.None? || !IsBullet(line) || Blank(line[2..]) then Err
    else
      var kind := p.current.value;
      Ok(p.(document := p.document.With(kind, p.document.Entries(kind) + [Strip(line[2..])])))
  }

  function ParseLines(p: Progress, lines: seq<string>): (r: Result<Progress>)
    decreases |lines|
  {
    if lines == [] then Ok(p)
    else
      var next := ParseLine(p, lines[0]);
      if next.Err? then Err else ParseLines(next.value, lines[1..])
  }

  function Parse(header: string, text: string): (r: Result<Document>) {
    if Blank(text) then Ok(EMPTY)
    else
      var lines := SplitLines(text);
      if lines == [] || lines[0] != header then Err
      else
        var p := ParseLines(START, lines[1..]);
        if p.Err? then Err else Ok(p.value.document)
  }

  lemma {:induction false} ParseConcat(p: Progress, a: seq<string>, b: seq<string>)
    ensures ParseLines(p, a + b) == if ParseLines(p, a).Err? then Err else ParseLines(ParseLines(p, a).value, b)
    decreases |a|
  {
    hide ParseLine;
    if a == [] {
      assert a + b == b;
    } else {
      assert (a + b)[1..] == a[1..] + b && (a + b)[0] == a[0];
      var next := ParseLine(p, a[0]);
      if next.Ok? { ParseConcat(next.value, a[1..], b); }
    }
  }

  lemma BulletParses(p: Progress, entry: string)
    requires p.current.Some? && Clean(entry)
    ensures ParseLine(p, "- " + entry) ==
            Ok(p.(document := p.document.With(p.current.value, p.document.Entries(p.current.value) + [entry])))
  {
    var line := "- " + entry;
    StripKeepsClean(entry);
    assert line[2..] == entry && line[..2] == "- ";
    assert line[0] == '-' && !Space('-');
  }

  lemma {:induction false} BulletsParse(p: Progress, entries: seq<string>)
    requires p.current.Some? && AllClean(entries)
    ensures ParseLines(p, Bullets(entries)) ==
            Ok(p.(document := p.document.With(p.current.value, p.document.Entries(p.current.value) + entries)))
    decreases |entries|
  {
    hide ParseLine, Clean;
    var kind := p.current.value;
    if entries == [] {
      assert p.document.Entries(kind) + [] == p.document.Entries(kind);
    } else {
      var bullets := Bullets(entries);
      assert Clean(entries[0]);
      assert forall i :: 0 <= i < |entries[1..]| ==> entries[1..][i] == entries[i + 1];
      assert bullets[0] == "- " + entries[0] && bullets[1..] == Bullets(entries[1..]);
      BulletParses(p, entries[0]);
      BulletsParse(ParseLine(p, bullets[0]).value, entries[1..]);
      assert p.document.Entries(kind) + [entries[0]] + entries[1..] == p.document.Entries(kind) + entries;
    }
  }

  lemma HeadingParses(p: Progress, kind: Kind)
    requires kind !in p.seen
    ensures ParseLine(p, Heading(kind)) == Ok(p.(current := Some(kind), seen := p.seen + {kind}))
  {
    var line := Heading(kind);
    assert line[0] == '#' && !Space('#');
    assert |Heading(Preference)| != |Heading(Fact)| && |Heading(Fact)| != |Heading(Decision)|;
    assert Heading(Preference)[3] == 'P' && Heading(Decision)[3] == 'D' && Heading(Fact)[3] == 'F';
  }

  lemma SectionParses(p: Progress, kind: Kind, d: Document)
    requires kind !in p.seen && AllClean(d.Entries(kind)) && p.document.Entries(kind) == []
    ensures ParseLines(p, Section(kind, d)) ==
            Ok(Progress(Some(kind), p.seen + {kind}, p.document.With(kind, d.Entries(kind))))
  {
    hide AllClean, Bullets, ParseLine, Heading;
    var lines := Section(kind, d);
    HeadingParses(p, kind);
    var next := p.(current := Some(kind), seen := p.seen + {kind});
    BulletsParse(next, d.Entries(kind));
    assert lines[0] == Heading(kind) && lines[1..] == Bullets(d.Entries(kind));
    assert [] + d.Entries(kind) == d.Entries(kind);
  }

  lemma BlankParses(p: Progress, rest: seq<string>)
    ensures ParseLines(p, [""] + rest) == ParseLines(p, rest)
  {
    assert ([""] + rest)[1..] == rest;
  }

  lemma {:induction false} BulletsOneLine(entries: seq<string>)
    requires AllClean(entries)
    ensures forall i :: 0 <= i < |entries| ==> OneLine(Bullets(entries)[i])
  {
    if entries != [] {
      assert Clean(entries[0]) && !Break('-') && !Break(' ');
      assert forall i :: 0 <= i < |entries[1..]| ==> entries[1..][i] == entries[i + 1];
      BulletsOneLine(entries[1..]);
    }
  }

  ghost predicate IsHeader(header: string) {
    header == GLOBAL_HEADER || header == WORKSPACE_HEADER
  }

  lemma FixedLinesOneLine(header: string)
    requires IsHeader(header)
    ensures OneLine(header) && !Blank(header)
    ensures OneLine(Heading(Preference)) && OneLine(Heading(Fact)) && OneLine(Heading(Decision))
  {
    HeadingsOneLine();
    hide Heading;
    assert header[0] == '#' && !Space('#');
  }

  lemma HeadingsOneLine()
    ensures OneLine(Heading(Preference)) && OneLine(Heading(Fact)) && OneLine(Heading(Decision))
  {
  }

  lemma FileOneLine(header: string, d: Document)
    requires IsHeader(header) && CleanDocument(d)
    ensures forall i :: 0 <= i < |FileLines(header, d)| ==> OneLine(FileLines(header, d)[i])
  {
    hide AllClean, Heading, Bullets, OneLine;
    FixedLinesOneLine(header);
    assert OneLine("") by { EmptyOneLine(); }
    BulletsOneLine(d.preferences);
    BulletsOneLine(d.facts);
    BulletsOneLine(d.decisions);
  }

  lemma EmptyOneLine()
    ensures OneLine("")
  {
  }

  /** What is printed is read back. */
  lemma CleanRoundTrips(header: string, d: Document)
    requires IsHeader(header) && CleanDocument(d)
    ensures Parse(header, Render(header, d)) == Ok(d)
  {
    var lines := FileLines(header, d);
    RenderedLines(header, d);
    FileOneLine(header, d);
    SplitText(lines);
    assert !Blank(Render(header, d)) by {
      FixedLinesOneLine(header);
      var i :| 0 <= i < |header| && !Space(header[i]);
      assert Render(header, d)[i] == header[i];
    }
    assert lines[0] == header;
    var rest := Section(Preference, d) + ([""] + (Section(Fact, d) + ([""] + Section(Decision, d))));
    assert lines[1..] == [""] + rest;
    FileParses(d);
    hide *;
    BlankParses(START, rest);
  }

  lemma FileParses(d: Document)
    requires CleanDocument(d)
    ensures ParseLines(START, Section(Preference, d) + ([""] + (Section(Fact, d) + ([""] + Section(Decision, d))))) ==
            Ok(Progress(Some(Decision), {Preference, Fact, Decision}, d))
  {
    hide AllClean, Section, ParseLines;
    var a, b, c := Section(Preference, d), Section(Fact, d), Section(Decision, d);
    SectionParses(START, Preference, d);
    var p := Progress(Some(Preference), {Preference}, EMPTY.With(Preference, d.preferences));
    assert {} + {Preference} == {Preference};
    ParseConcat(START, a, [""] + (b + ([""] + c)));
    BlankParses(p, b + ([""] + c));
    SectionParses(p, Fact, d);
    var q := Progress(Some(Fact), {Preference, Fact}, p.document.With(Fact, d.facts));
    assert {Preference} + {Fact} == {Preference, Fact};
    ParseConcat(p, b, [""] + c);
    BlankParses(q, c);
    SectionParses(q, Decision, d);
    assert {Preference, Fact} + {Decision} == {Preference, Fact, Decision};
  }

  // ---------------------------------------------------------------- exactly when

  lemma LineKeepsClean(p: Progress, line: string)
    requires CleanDocument(p.document) && OneLine(line) && ParseLine(p, line).Ok?
    ensures CleanDocument(ParseLine(p, line).value.document)
  {
    if IsBullet(line) {
      StripCleans(line[2..]);
      hide Clean, Blank, Strip, Heading;
    }
  }

  lemma {:induction false} LinesKeepClean(p: Progress, lines: seq<string>)
    requires CleanDocument(p.document) && forall i :: 0 <= i < |lines| ==> OneLine(lines[i])
    ensures ParseLines(p, lines).Ok? ==> CleanDocument(ParseLines(p, lines).value.document)
    decreases |lines|
  {
    hide ParseLine, CleanDocument, OneLine;
    if lines != [] && ParseLine(p, lines[0]).Ok? {
      LineKeepsClean(p, lines[0]);
      assert forall i :: 0 <= i < |lines[1..]| ==> lines[1..][i] == lines[i + 1];
      LinesKeepClean(ParseLine(p, lines[0]).value, lines[1..]);
    }
  }

  /** Whatever text is parsed, the document is one that can be printed. */
  lemma ParsedIsClean(header: string, text: string)
    ensures Parse(header, text).Ok? ==> CleanDocument(Parse(header, text).value)
  {
    if !Blank(text) {
      var lines := SplitLines(text);
      hide Blank, OneLine, ParseLines, SplitLines;
      if lines != [] {
        assert forall i :: 0 <= i < |lines[1..]| ==> lines[1..][i] == lines[i + 1];
        LinesKeepClean(START, lines[1..]);
      }
    }
  }

  /** A document survives being printed and parsed exactly when its entries are clean. */
  lemma RoundTripsExactlyWhenClean(header: string, d: Document)
    requires IsHeader(header)
    ensures Parse(header, Render(header, d)) == Ok(d) <==> CleanDocument(d)
  {
    ParsedIsClean(header, Render(header, d));
    if CleanDocument(d) { CleanRoundTrips(header, d); }
  }

  // ---------------------------------------------------------------- what a file says

  ghost predicate Heads(line: string, kind: Kind) {
    match kind
    case Preference => line == "## Preferences"
    case Fact => line == "## Facts"
    case Decision => line == "## Decisions"
  }

  ghost predicate IsHeading(line: string) {
    Heads(line, Preference) || Heads(line, Fact) || Heads(line, Decision)
  }

  /** A dash, a space and some text. */
  ghost predicate IsEntry(line: string) {
    |line| >= 2 && line[0] == '-' && line[1] == ' ' && !Blank(line[2..])
  }

  ghost predicate Above(lines: seq<string>, n: nat, kind: Kind)
    requires n <= |lines|
  {
    exists h :: 0 <= h < n && Heads(lines[h], kind)
  }

  /** The nearest heading in front of line `n` is that of `kind`. */
  ghost predicate Under(lines: seq<string>, n: nat, kind: Kind)
    requires n <= |lines|
  {
    exists h :: 0 <= h < n && Heads(lines[h], kind) && forall j :: h < j < n ==> !IsHeading(lines[j])
  }

  /** A line is blank, the first of its heading, or an entry below some heading. */
  ghost predicate LineFits(lines: seq<string>, i: nat)
    requires i < |lines|
  {
    || Blank(lines[i])
    || (IsHeading(lines[i]) && forall j :: 0 <= j < i ==> lines[j] != lines[i])
    || (IsEntry(lines[i]) && exists kind :: Above(lines, i, kind))
  }

  /** The stripped texts of the entries under `kind` among the first `n` lines, in order. */
  ghost function Filed(lines: seq<string>, n: nat, kind: Kind): (r: seq<string>)
    requires n <= |lines|
  {
    if n == 0 then []
    else if IsEntry(lines[n - 1]) && Under(lines, n - 1, kind) then
      Filed(lines, n - 1, kind) + [Strip(lines[n - 1][2..])]
    else Filed(lines, n - 1, kind)
  }

  /** How far a parse has come agrees with the first `n` lines. */
  ghost predicate ComesTo(lines: seq<string>, n: nat, p: Progress)
    requires n <= |lines|
  {
    forall kind ::
      && (p.current == Some(kind) <==> Under(lines, n, kind))
      && (kind in p.seen <==> Above(lines, n, kind))
      && (Above(lines, n, kind) ==> p.current.Some?)
      && p.document.Entries(kind) == Filed(lines, n, kind)
  }

  lemma UnderNext(lines: seq<string>, n: nat, kind: Kind)
    requires n < |lines|
    ensures Above(lines, n + 1, kind) <==> Heads(lines[n], kind) || Above(lines, n, kind)
    ensures Under(lines, n + 1, kind) <==> Heads(lines[n], kind) || (!IsHeading(lines[n]) && Under(lines, n, kind))
  {
    hide Heads;
    if Under(lines, n, kind) && !IsHeading(lines[n]) {
      var h :| 0 <= h < n && Heads(lines[h], kind) && forall j :: h < j < n ==> !IsHeading(lines[j]);
      assert forall j :: h < j < n + 1 ==> !IsHeading(lines[j]);
    }
    if Under(lines, n + 1, kind) && !Heads(lines[n], kind) {
      var h :| 0 <= h < n + 1 && Heads(lines[h], kind) && forall j :: h < j < n + 1 ==> !IsHeading(lines[j]);
      assert h < n && forall j :: h < j < n ==> !IsHeading(lines[j]);
    }
  }

  lemma HeadingIs(line: string, kind: Kind)
    ensures HeadingKind(line) == Some(kind) <==> Heads(line, kind)
    ensures Heads(line, kind) ==> !Blank(line) && !IsEntry(line)
  {
    assert Heads(line, kind) ==> line[0] == '#' && !Space('#');
    assert "## Preferences"[3] == 'P' && "## Decisions"[3] == 'D' && "## Facts"[3] == 'F';
  }

  lemma BulletIs(line: string)
    ensures IsBullet(line) && !Blank(line[2..]) <==> IsEntry(line)
    ensures IsEntry(line) ==> !Blank(line)
  {
    if |line| >= 2 {
      assert line[..2] == [line[0], line[1]];
      assert Space('-') == false;
    }
  }

  lemma NextLine(lines: seq<string>, n: nat)
    requires n < |lines|
    ensures IsBullet(lines[n]) && !Blank(lines[n][2..]) <==> IsEntry(lines[n])
    ensures IsEntry(lines[n]) ==> !Blank(lines[n])
    ensures forall kind ::
              && (HeadingKind(lines[n]) == Some(kind) <==> Heads(lines[n], kind))
              && (Heads(lines[n], kind) ==> !Blank(lines[n]) && !IsEntry(lines[n]))
              && (Above(lines, n + 1, kind) <==> Heads(lines[n], kind) || Above(lines, n, kind))
              && (Under(lines, n + 1, kind) <==>
                    Heads(lines[n], kind) || (!IsHeading(lines[n]) && Under(lines, n, kind)))
              && (Heads(lines[n], kind) ==> (Above(lines, n, kind) <==> exists j :: 0 <= j < n && lines[j] == lines[n]))
  {
    BulletIs(lines[n]);
    hide Blank, IsBullet, IsEntry, Under, IsHeading, HeadingKind;
    forall kind
      ensures HeadingKind(lines[n]) == Some(kind) <==> Heads(lines[n], kind)
      ensures Heads(lines[n], kind) ==> !Blank(lines[n]) && !IsEntry(lines[n])
      ensures Above(lines, n + 1, kind) <==> Heads(lines[n], kind) || Above(lines, n, kind)
      ensures Under(lines, n + 1, kind) <==> Heads(lines[n], kind) || (!IsHeading(lines[n]) && Under(lines, n, kind))
      ensures Heads(lines[n], kind) ==> (Above(lines, n, kind) <==> exists j :: 0 <= j < n && lines[j] == lines[n])
    {
      HeadingIs(lines[n], kind);
      UnderNext(lines, n, kind);
    }
  }

  lemma LineIsTaken(lines: seq<string>, n: nat, p: Progress)
    requires n < |lines| && ComesTo(lines, n, p)
    ensures ParseLine(p, lines[n]).Ok? <==> LineFits(lines, n)
  {
    NextLine(lines, n);
    hide Blank, Strip, IsBullet, IsEntry, Above, Under, Filed, Heads;
  }

  lemma LineComesTo(lines: seq<string>, n: nat, p: Progress)
    requires n < |lines| && ComesTo(lines, n, p) && ParseLine(p, lines[n]).Ok?
    ensures ComesTo(lines, n + 1, ParseLine(p, lines[n]).value)
  {
    NextLine(lines, n);
    hide Blank, Strip, IsBullet, IsEntry, Above, Under, Heads;
  }

  /** Lines are accepted exactly when each one fits, and then each kind holds the texts under
      its heading. */
  lemma {:induction false} ParseTells(lines: seq<string>, n: nat)
    requires n <= |lines|
    ensures var r := ParseLines(START, lines[..n]);
            && (r.Ok? <==> forall i :: 0 <= i < n ==> LineFits(lines, i))
            && (r.Ok? ==> ComesTo(lines, n, r.value))
  {
    if n > 0 {
      ParseTells(lines, n - 1);
      ParseConcat(START, lines[..n - 1], [lines[n - 1]]);
      assert lines[..n] == lines[..n - 1] + [lines[n - 1]];
      var before := ParseLines(START, lines[..n - 1]);
      if before.Ok? {
        LineIsTaken(lines, n - 1, before.value);
        if ParseLine(before.value, lines[n - 1]).Ok? { LineComesTo(lines, n - 1, before.value); }
        OneMoreLine(before.value, lines[n - 1]);
      }
      hide LineFits, ComesTo, ParseLine, ParseLines;
    }
  }

  /** A file is accepted exactly when it is blank or begins with its header and every further
      line fits; each kind then holds the texts under its heading, in order. */
  lemma FileTells(header: string, text: string)
    ensures var lines, r := SplitLines(text), Parse(header, text);
            && (Blank(text) ==> r == Ok(Document([], [], [])))
            && (!Blank(text) ==>
                  && (r.Ok? <==> lines != [] && lines[0] == header
                                 && forall i :: 0 <= i < |lines[1..]| ==> LineFits(lines[1..], i))
                  && (r.Ok? ==>
                        && r.value.preferences == Filed(lines[1..], |lines[1..]|, Preference)
                        && r.value.facts == Filed(lines[1..], |lines[1..]|, Fact)
                        && r.value.decisions == Filed(lines[1..], |lines[1..]|, Decision)))
  {
    var lines := SplitLines(text);
    if lines != [] {
      var rest := lines[1..];
      ParseTells(rest, |rest|);
      assert rest[..|rest|] == rest;
      hide LineFits, ParseLines, Blank, Filed, Above, Under, SplitLines;
      assert ParseLines(START, rest).Ok? ==>
               forall kind :: ParseLines(START, rest).value.document.Entries(kind) == Filed(rest, |rest|, kind);
    }
  }

  lemma OneMoreLine(p: Progress, line: string)
    ensures ParseLines(p, [line]) == ParseLine(p, line)
  {
  }

  // ---------------------------------------------------------------- the reconciler's answer

  function WordEnd(s: string): (n: nat)
    ensures n <= |s| && forall i :: 0 <= i < n ==> !Space(s[i])
    ensures n < |s| ==> Space(s[n])
    ensures s != [] && !Space(s[0]) ==> n > 0
  {
    if s == [] || Space(s[0]) then 0 else WordEnd(s[1..]) + 1
  }

  predicate Word(s: string) {
    s != [] && forall i :: 0 <= i < |s| ==> !Space(s[i])
  }

  function Words(s: string): (words: seq<string>)
    ensures forall i :: 0 <= i < |words| ==> Word(words[i])
    ensures words == [] <==> Blank(s)
    decreases |s|
  {
    if s == [] then []
    else if Space(s[0]) then
      assert Blank(s) <==> Blank(s[1..]) by { BlankTail(s); }
      Words(s[1..])
    else [s[..WordEnd(s)]] + Words(s[WordEnd(s)..])
  }

  lemma BlankTail(s: string)
    requires s != [] && Space(s[0])
    ensures Blank(s) <==> Blank(s[1..])
  {
    assert forall i :: 0 <= i < |s[1..]| ==> s[1..][i] == s[i + 1];
    if Blank(s[1..]) {
      forall i | 0 <= i < |s| ensures Space(s[i]) { assert i > 0 ==> s[i] == s[1..][i - 1]; }
    }
  }

  function Normalized(content: string): (s: string) {
    JoinWith(" ", Words(content))
  }

  lemma {:induction false} WordsJoinClean(words: seq<string>)
    requires words != [] && forall i :: 0 <= i < |words| ==> Word(words[i])
    ensures Clean(JoinWith(" ", words))
  {
    assert Word(words[0]);
    if |words| > 1 {
      var rest := JoinWith(" ", words[1..]);
      assert forall i :: 0 <= i < |words[1..]| ==> words[1..][i] == words[i + 1];
      WordsJoinClean(words[1..]);
      var s := words[0] + " " + rest;
      assert s[0] == words[0][0] && Last(s) == Last(rest) && !Break(' ');
    }
  }

  /** A space separates words, whatever stands before and behind it. */
  lemma {:induction false} WordsSeparate(a: string, c: char, b: string)
    requires Space(c)
    ensures Words(a + [c] + b) == Words(a) + Words(b)
    decreases |a|
  {
    var s := a + [c] + b;
    if a == [] {
      assert s[1..] == b;
    } else if Space(a[0]) {
      assert s[1..] == a[1..] + [c] + b;
      WordsSeparate(a[1..], c, b);
    } else {
      var n := WordEnd(a);
      WordEndsAt(a, [c] + b);
      assert a + ([c] + b) == s && s[..n] == a[..n] && s[n..] == a[n..] + [c] + b;
      WordsSeparate(a[n..], c, b);
      FirstWord(a);
      FirstWord(s);
      hide Words, Space, WordEnd;
      Associative([a[..n]], Words(a[n..]), Words(b));
    }
  }

  lemma FirstWord(s: string)
    requires s != [] && !Space(s[0])
    ensures Words(s) == [s[..WordEnd(s)]] + Words(s[WordEnd(s)..])
  {
  }

  lemma {:induction false} WordEndsAt(a: string, b: string)
    requires b != [] && Space(b[0])
    ensures WordEnd(a + b) == WordEnd(a)
  {
    if a != [] {
      assert (a + b)[1..] == a[1..] + b;
      WordEndsAt(a[1..], b);
    } else {
      assert a + b == b;
    }
  }

  lemma OneWord(w: string)
    requires Word(w)
    ensures Words(w) == [w]
  {
    assert w[|w|..] == [] && w[..|w|] == w;
  }

  /** Text with single blanks, and no other space, between its words. */
  ghost predicate Spaced(s: string) {
    forall i :: 0 <= i < |s| && Space(s[i]) ==> s[i] == ' ' && 0 < i < |s| - 1 && !Space(s[i + 1])
  }

  /** Normalising keeps the words and their order, and only single blanks between them. */
  lemma NormalizedKeepsWords(content: string)
    ensures Words(Normalized(content)) == Words(content) && Spaced(Normalized(content))
  {
    JoinedWords(Words(content));
  }

  lemma {:induction false} JoinedWords(words: seq<string>)
    requires forall i :: 0 <= i < |words| ==> Word(words[i])
    ensures Words(JoinWith(" ", words)) == words && Spaced(JoinWith(" ", words))
    ensures words != [] ==> JoinWith(" ", words) != [] && JoinWith(" ", words)[0] == words[0][0]
  {
    if |words| == 1 {
      OneWord(words[0]);
      assert words == [words[0]];
    } else if |words| > 1 {
      var rest := JoinWith(" ", words[1..]);
      assert forall i :: 0 <= i < |words[1..]| ==> words[1..][i] == words[i + 1];
      assert Word(words[0]) && Word(words[1]);
      JoinedWords(words[1..]);
      OneWord(words[0]);
      WordsSeparate(words[0], ' ', rest);
      assert words == [words[0]] + words[1..];
      BlankBetween(words[0], rest);
    }
  }

  lemma BlankBetween(word: string, rest: string)
    requires Word(word) && Spaced(rest) && rest != [] && !Space(rest[0])
    ensures Spaced(word + " " + rest)
  {
    var s := word + " " + rest;
    forall i | 0 <= i < |s| && Space(s[i]) ensures s[i] == ' ' && 0 < i < |s| - 1 && !Space(s[i + 1]) {
      assert i > |word| ==> s[i] == rest[i - |word| - 1];
      assert i == |word| ==> s[i + 1] == rest[0];
    }
  }

  datatype Entry = Entry(kind: Kind, content: string)

  function AddEntry(d: Document, e: Entry): (r: Result<Document>) {
    if Blank(e.content) then Err
    else
      var entries := d.Entries(e.kind);
      Ok(if Normalized(e.content) in entries then d else d.With(e.kind, entries + [Normalized(e.content)]))
  }

  function FromEntries(entries: seq<Entry>): (r: Result<Document>)
    decreases |entries|
  {
    if entries == [] then Ok(EMPTY)
    else
      var front := FromEntries(entries[..|entries| - 1]);
      if front.Err? then Err else AddEntry(front.value, Last(entries))
  }

  ghost predicate NoRepeats(d: Document) {
    Distinct(d.preferences) && Distinct(d.facts) && Distinct(d.decisions)
  }

  lemma AddEntryClean(d: Document, e: Entry)
    requires CleanDocument(d) && NoRepeats(d) && AddEntry(d, e).Ok?
    ensures CleanDocument(AddEntry(d, e).value) && NoRepeats(AddEntry(d, e).value)
  {
    WordsJoinClean(Words(e.content));
    hide Clean, Blank, Words, JoinWith;
  }

  /** Whatever the model answers, an accepted document can be printed, and holds nothing
      twice. */
  lemma {:induction false} ReconciledIsClean(entries: seq<Entry>)
    ensures FromEntries(entries).Ok? <==> forall i :: 0 <= i < |entries| ==> !Blank(entries[i].content)
    ensures FromEntries(entries).Ok? ==>
            CleanDocument(FromEntries(entries).value) && NoRepeats(FromEntries(entries).value)
    decreases |entries|
  {
    if entries != [] {
      var front := entries[..|entries| - 1];
      ReconciledIsClean(front);
      assert entries == front + [Last(entries)];
      hide CleanDocument, NoRepeats, Blank, Normalized;
      if FromEntries(front).Ok? && !Blank(Last(entries).content) {
        AddEntryClean(FromEntries(front).value, Last(entries));
      }
    }
  }

  /** Entry `i` says `x` about `kind`. */
  ghost predicate SaysIt(entries: seq<Entry>, i: nat, kind: Kind, x: string) {
    i < |entries| && entries[i].kind == kind && Normalized(entries[i].content) == x
  }

  ghost predicate SaidBefore(entries: seq<Entry>, kind: Kind, x: string, y: string) {
    exists i :: SaysIt(entries, i, kind, x) && forall j :: j <= i ==> !SaysIt(entries, j, kind, y)
  }

  /** `held` is what the entries say about `kind`: each text once, in the order in which
      they first come up, and nothing else. */
  ghost predicate Gathers(entries: seq<Entry>, kind: Kind, held: seq<string>) {
    && (forall x :: x in held <==> exists i :: SaysIt(entries, i, kind, x))
    && (forall a, b :: 0 <= a < b < |held| ==> SaidBefore(entries, kind, held[a], held[b]))
  }

  /** An accepted answer becomes exactly what its entries say. */
  lemma {:induction false} ReconciledGathers(entries: seq<Entry>, kind: Kind)
    requires FromEntries(entries).Ok?
    ensures Gathers(entries, kind, FromEntries(entries).value.Entries(kind))
    decreases |entries|
  {
    if entries != [] {
      var front, e := entries[..|entries| - 1], Last(entries);
      ReconciledGathers(front, kind);
      assert entries == front + [e];
      GathersOneMore(front, e, kind, FromEntries(front).value.Entries(kind));
      AddEntryHolds(FromEntries(front).value, e, kind);
      hide Gathers, Normalized, AddEntry;
    }
  }

  lemma AddEntryHolds(d: Document, e: Entry, kind: Kind)
    requires AddEntry(d, e).Ok?
    ensures var x := Normalized(e.content);
            AddEntry(d, e).value.Entries(kind) ==
            if e.kind == kind && x !in d.Entries(kind) then d.Entries(kind) + [x] else d.Entries(kind)
  {
    hide Normalized;
  }

  lemma GathersOneMore(front: seq<Entry>, e: Entry, kind: Kind, held: seq<string>)
    requires Gathers(front, kind, held)
    ensures var x := Normalized(e.content);
            Gathers(front + [e], kind, if e.kind == kind && x !in held then held + [x] else held)
  {
    hide Normalized;
    var x := Normalized(e.content);
    SaysOneMore(front, e, kind);
    hide Normalized, SaysIt;
    OneMoreHeld(front, front + [e], kind, held, if e.kind == kind then Some(x) else None);
  }

  /** What one more entry says. */
  lemma SaysOneMore(front: seq<Entry>, e: Entry, kind: Kind)
    ensures forall i: nat, y :: SaysIt(front + [e], i, kind, y) <==>
              (SaysIt(front, i, kind, y) || (i == |front| && e.kind == kind && y == Normalized(e.content)))
    ensures forall i: nat, y :: SaysIt(front, i, kind, y) ==> i < |front|
  {
    hide Normalized;
  }

  lemma OneMoreHeld(front: seq<Entry>, all: seq<Entry>, kind: Kind, held: seq<string>, more: Option<string>)
    requires Gathers(front, kind, held)
    requires forall i: nat, y :: SaysIt(all, i, kind, y) <==>
               (SaysIt(front, i, kind, y) || (i == |front| && more == Some(y)))
    requires forall i: nat, y :: SaysIt(front, i, kind, y) ==> i < |front|
    ensures Gathers(all, kind, if more.Some? && more.value !in held then held + [more.value] else held)
  {
    hide SaysIt;
    var held' := if more.Some? && more.value !in held then held + [more.value] else held;
    forall y ensures y in held' <==> exists i :: SaysIt(all, i, kind, y) {
      if y in held {
        var i :| SaysIt(front, i, kind, y);
        assert SaysIt(all, i, kind, y);
      }
      if more == Some(y) { assert SaysIt(all, |front|, kind, y); }
    }
    forall a, b | 0 <= a < b < |held'| ensures SaidBefore(all, kind, held'[a], held'[b]) {
      assert held[a] in held;
      if b < |held| {
        StillBefore(front, all, kind, held[a], held[b], more);
      } else {
        var i :| SaysIt(front, i, kind, held[a]);
        assert SaysIt(all, i, kind, held[a]) && forall j :: j <= i ==> !SaysIt(all, j, kind, held'[b]);
      }
    }
  }

  lemma StillBefore(front: seq<Entry>, all: seq<Entry>, kind: Kind, x: string, y: string, more: Option<string>)
    requires SaidBefore(front, kind, x, y)
    requires forall i: nat, z :: SaysIt(all, i, kind, z) <==>
               (SaysIt(front, i, kind, z) || (i == |front| && more == Some(z)))
    requires forall i: nat, z :: SaysIt(front, i, kind, z) ==> i < |front|
    ensures SaidBefore(all, kind, x, y)
  {
    hide SaysIt;
    var i :| SaysIt(front, i, kind, x) && forall j :: j <= i ==> !SaysIt(front, j, kind, y);
    assert SaysIt(all, i, kind, x) && forall j :: j <= i ==> !SaysIt(all, j, kind, y);
  }

  // ---------------------------------------------------------------- the store

  /** A memory file: the global one, or a workspace's. */
  datatype Slot = Global | Workspace(path: Id)

  function Header(slot: Slot): (s: string) {
    if slot.Global? then GLOBAL_HEADER else WORKSPACE_HEADER
  }

  type Files = map<Slot, string>

  /** A file that is not there reads as empty. */
  function Read(files: Files, slot: Slot): (r: Result<Document>) {
    Parse(Header(slot), if slot in files then files[slot] else "")
  }

  datatype Update = Update(document: Document, expected: Option<Document>)

  /** One slot's part of a guarded write: refused when the file no longer holds what the
      writer had read. */
  predicate Admits(files: Files, slot: Slot, update: Option<Update>) {
    update.Some? && update.value.expected.Some? ==> Read(files, slot) == Ok(update.value.expected.value)
  }

  function Written(files: Files, slot: Slot, update: Option<Update>): (r: Files) {
    if update.None? then files else files[slot := Render(Header(slot), update.value.document)]
  }

  /** How far a write gets: its process may die, or a file may fail to be replaced, in
      front of either file. */
  datatype Reach = Nothing | GlobalOnly | Everything

  datatype Write = Write(path: Id, global: Option<Update>, local: Option<Update>, reach: Reach) {
    /** What the write puts into a slot. */
    function For(slot: Slot): (u: Option<Update>) {
      if slot == Global && !reach.Nothing? then global
      else if slot == Workspace(path) && reach.Everything? then local
      else None
    }

    predicate Printable() {
      && (global.Some? ==> CleanDocument(global.value.document))
      && (local.Some? ==> CleanDocument(local.value.document))
    }
  }

  /** Both files are read and checked before either is written, all under the lock. */
  function Apply(files: Files, w: Write): (r: Result<Files>) {
    if Read(files, Global).Err? || Read(files, Workspace(w.path)).Err? then Err
    else if !Admits(files, Global, w.global) || !Admits(files, Workspace(w.path), w.local) then Err
    else Ok(Written(Written(files, Global, w.For(Global)), Workspace(w.path), w.For(Workspace(w.path))))
  }

  /** An admitted write of printable documents changes the slots it reaches to exactly
      those documents and no other slot. */
  lemma WriteReadsBack(files: Files, w: Write, slot: Slot)
    requires w.Printable() && Apply(files, w).Ok?
    ensures var files' := Apply(files, w).value;
            Read(files', slot) == if w.For(slot).Some? then Ok(w.For(slot).value.document) else Read(files, slot)
  {
    hide Parse, Render;
    if w.For(slot).Some? { Readable(slot, w.For(slot).value.document); }
  }

  lemma Readable(slot: Slot, d: Document)
    requires CleanDocument(d)
    ensures Parse(Header(slot), Render(Header(slot), d)) == Ok(d)
  {
    CleanRoundTrips(Header(slot), d);
  }

  /** The files after any writers' attempts; a refused one changes nothing. */
  function After(files: Files, writes: seq<Write>): (r: Files)
    decreases |writes|
  {
    if writes == [] then files
    else
      var before := After(files, writes[..|writes| - 1]);
      if Apply(before, Last(writes)).Ok? then Apply(before, Last(writes)).value else before
  }

  /** The last document that was accepted for a slot, or what was there at first. */
  function Latest(files: Files, writes: seq<Write>, slot: Slot): (r: Result<Document>)
    decreases |writes|
  {
    if writes == [] then Read(files, slot)
    else
      var front, w := writes[..|writes| - 1], Last(writes);
      if Apply(After(files, front), w).Ok? && w.For(slot).Some? then Ok(w.For(slot).value.document)
      else Latest(files, front, slot)
  }

  lemma AdmittedRead(files: Files, w: Write, slot: Slot)
    requires Apply(files, w).Ok? && w.For(slot).Some? && w.For(slot).value.expected.Some?
    ensures Read(files, slot) == Ok(w.For(slot).value.expected.value)
  {
    hide Read, Written;
  }

  /** Over any history of writers, a slot always reads as the last document accepted for
      it, so a guarded write is accepted only if it was made from that very document: no
      update made in between is lost. */
  lemma {:induction false} NoUpdateLost(files: Files, writes: seq<Write>, slot: Slot)
    requires forall i :: 0 <= i < |writes| ==> writes[i].Printable()
    ensures Read(After(files, writes), slot) == Latest(files, writes, slot)
    ensures writes != [] ==>
              var front, w := writes[..|writes| - 1], Last(writes);
              && Read(After(files, front), slot) == Latest(files, front, slot)
              && (Apply(After(files, front), w).Ok? && w.For(slot).Some? && w.For(slot).value.expected.Some? ==>
                    Latest(files, front, slot) == Ok(w.For(slot).value.expected.value))
    decreases |writes|
  {
    if writes != [] {
      var front, w := writes[..|writes| - 1], Last(writes);
      NoUpdateLost(files, front, slot);
      assert writes[|writes| - 1].Printable();
      if Apply(After(files, front), w).Ok? && w.For(slot).Some? && w.For(slot).value.expected.Some? {
        AdmittedRead(After(files, front), w, slot);
      }
      hide Read, Written, Apply;
      if Apply(After(files, front), w).Ok? { WriteReadsBack(After(files, front), w, slot); }
    }
  }

  ghost predicate StillHolds(found: Result<Document>, update: Option<Update>) {
    && found.Ok?
    && (update.Some? && update.value.expected.Some? ==> found.value == update.value.expected.value)
  }

  /** A write is accepted exactly when both of its files can be read and each one it replaces
      still reads as its writer had read it: as the document last accepted for it. */
  lemma AcceptedExactly(files: Files, writes: seq<Write>, w: Write)
    requires forall i :: 0 <= i < |writes| ==> writes[i].Printable()
    ensures Apply(After(files, writes), w).Ok? <==>
            && StillHolds(Latest(files, writes, Global), w.global)
            && StillHolds(Latest(files, writes, Workspace(w.path)), w.local)
  {
    NoUpdateLost(files, writes, Global);
    NoUpdateLost(files, writes, Workspace(w.path));
    hide Read, After, Latest, Written;
  }

  /** A document that came from a file, or from the reconciler, is printable, so the
      condition above holds for every writer there is. */
  lemma WritersArePrintable(slot: Slot, text: string, entries: seq<Entry>)
    ensures Parse(Header(slot), text).Ok? ==> CleanDocument(Parse(Header(slot), text).value)
    ensures FromEntries(entries).Ok? ==> CleanDocument(FromEntries(entries).value)
  {
    ParsedIsClean(Header(slot), text);
    ReconciledIsClean(entries);
  }

  // ---------------------------------------------------------------- the code that loops

  method ParseDocumentLines(lines: seq<string>) returns (d: Result<Document>)
    ensures d == var p := ParseLines(START, lines); if p.Err? then Err else Ok(p.value.document)
  {
    hide Heading;
    var grouped, current, seen := EMPTY, None, {};
    for i := 0 to |lines|
      invariant ParseLines(START, lines) == ParseLines(Progress(current, seen, grouped), lines[i..])
    {
      var line := lines[i];
      assert lines[i..][0] == line && lines[i..][1..] == lines[i + 1..];
      if Blank(line) { continue; }
      var heading := HeadingKind(line);
      if heading.Some? {
        if heading.value in seen { return Err; }
        current, seen := heading, seen + {heading.value};
        continue;
      }
      if current.None? || !IsBullet(line) || Blank(line[2..]) { return Err; }
      grouped := grouped.With(current.value, grouped.Entries(current.value) + [Strip(line[2..])]);
    }
    d := Ok(grouped);
  }

  method DocumentFromEntries(entries: seq<Entry>) returns (d: Result<Document>)
    ensures d == FromEntries(entries)
  {
    hide Blank, Normalized;
    var grouped := EMPTY;
    for i := 0 to |entries|
      invariant FromEntries(entries[..i]) == Ok(grouped)
    {
      var e := entries[i];
      assert entries[..i + 1][..i] == entries[..i] && Last(entries[..i + 1]) == e;
      if Blank(e.content) {
        ReconciledIsClean(entries);
        return Err;
      }
      var normalized := Normalized(e.content);
      if normalized !in grouped.Entries(e.kind) {
        grouped := grouped.With(e.kind, grouped.Entries(e.kind) + [normalized]);
      }
    }
    assert entries[..|entries|] == entries;
    d := Ok(grouped);
  }

  class MemoryStore {
    var files: Files

    constructor (files: Files)
      ensures this.files == files
    {
      this.files := files;
    }

    method ParseFile(slot: Slot) returns (d: Result<Document>)
      ensures d == Read(files, slot)
    {
      var text := if slot in files then files[slot] else "";
      if Blank(text) { return Ok(EMPTY); }
      var lines := SplitLines(text);
      if lines == [] || lines[0] != Header(slot) { return Err; }
      d := ParseDocumentLines(lines[1..]);
    }

    /** `ok`: the write was admitted. It stops where `w.reach` says. */
    method Store(w: Write) returns (ok: bool)
      modifies this
      ensures ok == Apply(old(files), w).Ok?
      ensures files == if ok then Apply(old(files), w).value else old(files)
    {
      hide Parse, Render;
      var global := ParseFile(Global);
      var local := ParseFile(Workspace(w.path));
      if global.Err? || local.Err? { return false; }
      if w.global.Some? && w.global.value.expected.Some? && global.value != w.global.value.expected.value {
        return false;
      }
      if w.local.Some? && w.local.value.expected.Some? && local.value != w.local.value.expected.value { return false; }
      if w.reach.Nothing? { return true; }
      if w.global.Some? { files := files[Global := Render(GLOBAL_HEADER, w.global.value.document)]; }
      if w.reach.GlobalOnly? { return true; }
      if w.local.Some? { files := files[Workspace(w.path) := Render(WORKSPACE_HEADER, w.local.value.document)]; }
      ok := true;
    }
  }
}
