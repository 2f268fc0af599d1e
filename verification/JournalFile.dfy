/** The JSONL journal file: append, torn-tail repair before an append, replay.
    The JSON encoding of an event is a parameter; UTF-8 is modelled, because a
    write can be cut inside a character. */
module JournalFile {
  import opened Common

  type Byte = b: int | 0 <= b < 256

  const NEWLINE: Byte := 10
  const OPEN_BRACE: Byte := 123
  const CLOSE_BRACE: Byte := 125
  const SCAN_CHUNK := 4096

  // ---------------------------------------------------------------- UTF-8

  predicate Continuation(s: seq<Byte>, i: nat) {
    i < |s| && 0x80 <= s[i] < 0xC0
  }

  /** Length of the encoded character at the front of `s`; 0 when there is none. */
  function CharLength(s: seq<Byte>): (n: nat)
    ensures n <= |s| && n <= 4
    ensures forall i :: 1 <= i < n ==> s[i] >= 0x80
  {
    if s == [] then 0
    else if s[0] < 0x80 then 1
    else if 0xC2 <= s[0] < 0xE0 && Continuation(s, 1) then 2
    else if 0xE0 <= s[0] < 0xF0 && Continuation(s, 1) && Continuation(s, 2) && InRange(s[0], s[1]) then 3
    else if 0xF0 <= s[0] < 0xF5 && Continuation(s, 1) && Continuation(s, 2) && Continuation(s, 3)
      && InRange(s[0], s[1]) then 4
    else 0
  }

  /** No longer encoding than needed, no surrogate, nothing beyond U+10FFFF. */
  predicate InRange(first: Byte, second: Byte) {
    match first
    case 0xE0 => second >= 0xA0
    case 0xED => second < 0xA0
    case 0xF0 => second >= 0x90
    case 0xF4 => second < 0x90
    case _ => true
  }

  predicate Utf8(s: seq<Byte>) {
    s == [] || (CharLength(s) > 0 && Utf8(s[CharLength(s)..]))
  }

  lemma {:induction false} Utf8Append(a: seq<Byte>, b: seq<Byte>)
    requires Utf8(a)
    ensures Utf8(a + b) <==> Utf8(b)
  {
    if a == [] {
      assert a + b == b;
    } else {
      var n := CharLength(a);
      assert forall i :: 0 <= i < |a| ==> (a + b)[i] == a[i];
      assert CharLength(a + b) == n;
      assert (a + b)[n..] == a[n..] + b;
      Utf8Append(a[n..], b);
    }
  }

  /** An ASCII byte ends a character, so decoding can be split behind it. */
  lemma {:induction false} Utf8SplitsAfterAscii(s: seq<Byte>, i: nat)
    requires i < |s| && s[i] < 0x80 && Utf8(s)
    ensures Utf8(s[..i + 1]) && Utf8(s[i + 1..])
  {
    hide Utf8, CharLength;
    var n, front := CharLength(s), s[..i + 1];
    CharLengthOfFront(s, i);
    Utf8Step(s);
    Utf8Step(front);
    if i < n {
      assert front[1..] == [];
    } else {
      SliceTwice(s, n, i + 1);
      Utf8SplitsAfterAscii(s[n..], i - n);
    }
  }

  lemma Utf8Step(s: seq<Byte>)
    ensures s != [] ==> (Utf8(s) <==> CharLength(s) > 0 && Utf8(s[CharLength(s)..]))
    ensures Utf8([])
  {
  }

  /** Bytes behind an ASCII byte do not matter to the character in front of it. */
  lemma CharLengthOfFront(s: seq<Byte>, i: nat)
    requires i < |s| && s[i] < 0x80
    ensures CharLength(s[..i + 1]) == CharLength(s)
    ensures i < CharLength(s) ==> i == 0 && CharLength(s) == 1
  {
    var front := s[..i + 1];
    assert forall k :: 0 <= k <= i ==> front[k] == s[k];
  }

  // ---------------------------------------------------------------- what UTF-8 is

  /** A code point that is not a surrogate. */
  type Scalar = n: int | 0 <= n < 0xD800 || 0xE000 <= n < 0x11_0000

  /** The encoding of section 3 of RFC 3629. */
  function Encoded(n: Scalar): (s: seq<Byte>)
    ensures 1 <= |s| <= 4
  {
    var a, b, c := n / 0x40, n / 0x40 / 0x40, n / 0x40 / 0x40 / 0x40;
    if n < 0x80 then [n]
    else if n < 0x800 then [0xC0 + a, 0x80 + n % 0x40]
    else if n < 0x1_0000 then [0xE0 + b, 0x80 + a % 0x40, 0x80 + n % 0x40]
    else [0xF0 + c, 0x80 + b % 0x40, 0x80 + a % 0x40, 0x80 + n % 0x40]
  }

  function EncodedAll(ns: seq<Scalar>): (s: seq<Byte>) {
    if ns == [] then [] else Encoded(ns[0]) + EncodedAll(ns[1..])
  }

  lemma EncodedIsCharacter(n: Scalar, rest: seq<Byte>)
    ensures CharLength(Encoded(n) + rest) == |Encoded(n)|
  {
  }

  lemma CharacterIsEncoded(s: seq<Byte>) returns (n: Scalar)
    requires CharLength(s) > 0
    ensures s[..CharLength(s)] == Encoded(n)
  {
    hide Encoded;
    var bytes: seq<int> := s;
    if CharLength(s) == 1 {
      n := s[0];
      OneByte(n);
    } else if CharLength(s) == 2 {
      n := (bytes[0] - 0xC0) * 0x40 + (bytes[1] - 0x80);
      TwoBytes(bytes[0], bytes[1]);
    } else if CharLength(s) == 3 {
      n := ((bytes[0] - 0xE0) * 0x40 + (bytes[1] - 0x80)) * 0x40 + (bytes[2] - 0x80);
      ThreeBytes(bytes[0], bytes[1], bytes[2]);
    } else {
      n := (((bytes[0] - 0xF0) * 0x40 + (bytes[1] - 0x80)) * 0x40 + (bytes[2] - 0x80)) * 0x40 + (bytes[3] - 0x80);
      FourBytes(bytes[0], bytes[1], bytes[2], bytes[3]);
    }
  }

  lemma OneByte(n: Byte)
    requires n < 0x80
    ensures Encoded(n) == [n]
  {
  }

  lemma TwoBytes(a: int, b: int)
    requires 0xC2 <= a < 0xE0 && 0x80 <= b < 0xC0
    ensures Encoded((a - 0xC0) * 0x40 + (b - 0x80)) == [a, b]
  {
    Sixes(a - 0xC0, b - 0x80);
  }

  lemma ThreeBytes(a: int, b: int, c: int)
    requires 0xE0 <= a < 0xF0 && 0x80 <= b < 0xC0 && 0x80 <= c < 0xC0 && InRange(a, b)
    ensures var n := ((a - 0xE0) * 0x40 + (b - 0x80)) * 0x40 + (c - 0x80);
            (0x800 <= n < 0xD800 || 0xE000 <= n < 0x1_0000) && Encoded(n) == [a, b, c]
  {
    Sixes(a - 0xE0, b - 0x80);
    Sixes((a - 0xE0) * 0x40 + (b - 0x80), c - 0x80);
  }

  lemma FourBytes(a: int, b: int, c: int, d: int)
    requires 0xF0 <= a < 0xF5 && 0x80 <= b < 0xC0 && 0x80 <= c < 0xC0 && 0x80 <= d < 0xC0 && InRange(a, b)
    ensures var n := (((a - 0xF0) * 0x40 + (b - 0x80)) * 0x40 + (c - 0x80)) * 0x40 + (d - 0x80);
            0x1_0000 <= n < 0x11_0000 && Encoded(n) == [a, b, c, d]
  {
    var x := (a - 0xF0) * 0x40 + (b - 0x80);
    Sixes(a - 0xF0, b - 0x80);
    Sixes(x, c - 0x80);
    Sixes(x * 0x40 + (c - 0x80), d - 0x80);
  }

  lemma Sixes(high: nat, low: nat)
    requires low < 0x40
    ensures (high * 0x40 + low) / 0x40 == high && (high * 0x40 + low) % 0x40 == low
  {
  }

  ghost predicate Spells(s: seq<Byte>, ns: seq<Scalar>) {
    s == EncodedAll(ns)
  }

  /** Bytes can be decoded exactly when they are the encoding of some text. */
  lemma {:induction false} Utf8Means(s: seq<Byte>)
    ensures Utf8(s) <==> exists ns :: Spells(s, ns)
  {
    if Utf8(s) { var ns := Utf8Decodes(s); }
    if exists ns :: Spells(s, ns) {
      var ns :| Spells(s, ns);
      EncodedDecodes(ns);
    }
  }

  lemma {:induction false} Utf8Decodes(s: seq<Byte>) returns (ns: seq<Scalar>)
    requires Utf8(s)
    ensures Spells(s, ns)
  {
    if s == [] {
      ns := [];
    } else {
      var n := CharacterIsEncoded(s);
      var more := Utf8Decodes(s[CharLength(s)..]);
      ns := [n] + more;
      assert s == s[..CharLength(s)] + s[CharLength(s)..];
      hide Utf8, CharLength, Encoded;
      assert ns[1..] == more;
    }
  }

  lemma {:induction false} EncodedDecodes(ns: seq<Scalar>)
    ensures Utf8(EncodedAll(ns))
  {
    if ns != [] {
      hide Encoded, CharLength;
      var first, rest := Encoded(ns[0]), EncodedAll(ns[1..]);
      EncodedIsCharacter(ns[0], rest);
      EncodedDecodes(ns[1..]);
      assert (first + rest)[|first|..] == rest;
    }
  }

  // ---------------------------------------------------------------- records

  /** `decode` is `json.loads` on decodable text: None stands for JSONDecodeError. */
  datatype Codec<!E> = Codec(encode: E -> seq<Byte>, decode: seq<Byte> -> Option<E>)

  predicate Whitespace(b: Byte) {
    b == 32 || 9 <= b <= 13
  }

  predicate Blank(line: seq<Byte>) {
    forall i :: 0 <= i < |line| ==> Whitespace(line[i])
  }

  /** One record is one JSON object on one line (section 4 of RFC 8259). */
  ghost predicate LawfulRecord<E>(c: Codec<E>, e: E) {
    var text := c.encode(e);
    && text != [] && text[0] == OPEN_BRACE
    && OneLine(text)
    && Utf8(text)
    && c.decode(text) == Some(e)
    && forall k :: 0 <= k < |text| ==> c.decode(text[..k]) == None
  }

  ghost predicate Lawful<E(!new)>(c: Codec<E>) {
    && (forall e :: LawfulRecord(c, e))
    && (forall s :: Blank(s) ==> c.decode(s) == None)
  }

  function Render<E>(c: Codec<E>, events: seq<E>): (text: seq<Byte>) {
    if events == [] then [] else c.encode(events[0]) + [NEWLINE] + Render(c, events[1..])
  }

  // ---------------------------------------------------------------- lines

  predicate OneLine(s: seq<Byte>) {
    forall i :: 0 <= i < |s| ==> s[i] != NEWLINE
  }

  function FirstNewline(s: seq<Byte>): (n: nat)
    ensures n <= |s|
    ensures forall i :: 0 <= i < n ==> s[i] != NEWLINE
    ensures n < |s| ==> s[n] == NEWLINE
  {
    if s == [] || s[0] == NEWLINE then 0 else 1 + FirstNewline(s[1..])
  }

  /** `bytes.rfind(b"\n")`. */
  function LastNewline(s: seq<Byte>): (r: int)
    ensures -1 <= r < |s|
    ensures r >= 0 ==> s[r] == NEWLINE
    ensures forall i :: r < i < |s| ==> s[i] != NEWLINE
  {
    if s == [] then -1
    else if Last(s) == NEWLINE then |s| - 1
    else LastNewline(s[..|s| - 1])
  }

  /** Where the unterminated last line starts. */
  function LineStart(file: seq<Byte>): (start: nat)
    ensures start <= |file|
  {
    LastNewline(file) + 1
  }

  function Tail(file: seq<Byte>): (tail: seq<Byte>) {
    file[LineStart(file)..]
  }

  predicate Clean(file: seq<Byte>) {
    file == [] || Last(file) == NEWLINE
  }

  // ---------------------------------------------------------------- replay

  function Append<E>(a: Result<seq<E>>, b: Result<seq<E>>): (r: Result<seq<E>>) {
    if a.Ok? && b.Ok? then Ok(a.value + b.value) else Err
  }

  function ReplayLine<E>(c: Codec<E>, line: seq<Byte>, terminated: bool): (r: Result<seq<E>>) {
    if Blank(line) then Ok([])
    else match c.decode(line)
      case Some(e) => Ok([e])
      case None => if terminated then Err else Ok([])
  }

  function ReplayLines<E>(c: Codec<E>, file: seq<Byte>): (r: Result<seq<E>>)
    decreases |file|
  {
    var n := FirstNewline(file);
    if n == |file| then ReplayLine(c, file, false)
    else Append(ReplayLine(c, file[..n], true), ReplayLines(c, file[n + 1..]))
  }

  /** What loading the file yields; Err when loading raises. */
  function Replay<E>(c: Codec<E>, file: seq<Byte>): (r: Result<seq<E>>) {
    if Utf8(file) then ReplayLines(c, file) else Err
  }

  /** The file after torn-tail repair; Err when the repair itself raises. */
  function Prepare<E>(c: Codec<E>, file: seq<Byte>): (r: Result<seq<Byte>>) {
    if Clean(file) then Ok(file)
    else if !Utf8(Tail(file)) then Err
    else if c.decode(Tail(file)).None? then Ok(file[..LineStart(file)])
    else Ok(file + [NEWLINE])
  }

  lemma AppendAssociative<E>(a: Result<seq<E>>, b: Result<seq<E>>, d: Result<seq<E>>)
    ensures Append(a, Append(b, d)) == Append(Append(a, b), d)
    ensures Append(a, Ok([])) == a == Append(Ok([]), a)
  {
    if a.Ok? {
      assert a.value + [] == a.value == [] + a.value;
      if b.Ok? && d.Ok? {
        assert a.value + (b.value + d.value) == (a.value + b.value) + d.value;
      }
    }
  }

  lemma ReplayFirstLine<E>(c: Codec<E>, line: seq<Byte>, rest: seq<Byte>)
    requires OneLine(line)
    ensures ReplayLines(c, line + [NEWLINE] + rest) == Append(ReplayLine(c, line, true), ReplayLines(c, rest))
  {
    var text := line + [NEWLINE] + rest;
    var n := FirstNewline(text);
    assert text[|line|] == NEWLINE;
    assert n == |line|;
    assert text[..n] == line && text[n + 1..] == rest;
  }

  lemma FirstLine(a: seq<Byte>) returns (line: seq<Byte>, rest: seq<Byte>)
    requires a != [] && Clean(a)
    ensures a == line + [NEWLINE] + rest && OneLine(line) && Clean(rest)
  {
    var n := FirstNewline(a);
    line, rest := a[..n], a[n + 1..];
  }

  lemma {:induction false} ReplayLinesConcat<E>(c: Codec<E>, a: seq<Byte>, b: seq<Byte>)
    requires Clean(a)
    ensures ReplayLines(c, a + b) == Append(ReplayLines(c, a), ReplayLines(c, b))
    decreases |a|
  {
    if a == [] {
      assert a + b == b;
      AppendAssociative(ReplayLines(c, b), Ok([]), Ok([]));
    } else {
      var line, rest := FirstLine(a);
      assert a + b == line + [NEWLINE] + (rest + b);
      calc {
        ReplayLines(c, a + b);
        { ReplayFirstLine(c, line, rest + b); }
        Append(ReplayLine(c, line, true), ReplayLines(c, rest + b));
        { ReplayLinesConcat(c, rest, b); }
        Append(ReplayLine(c, line, true), Append(ReplayLines(c, rest), ReplayLines(c, b)));
        { AppendAssociative(ReplayLine(c, line, true), ReplayLines(c, rest), ReplayLines(c, b)); }
        Append(Append(ReplayLine(c, line, true), ReplayLines(c, rest)), ReplayLines(c, b));
        { ReplayFirstLine(c, line, rest); }
        Append(ReplayLines(c, a), ReplayLines(c, b));
      }
    }
  }

  lemma SplitTail(file: seq<Byte>)
    ensures file == file[..LineStart(file)] + Tail(file)
    ensures Clean(file[..LineStart(file)])
    ensures OneLine(Tail(file))
    ensures Utf8(file) <==> Utf8(file[..LineStart(file)]) && Utf8(Tail(file))
  {
    Utf8Lines(file[..LineStart(file)], Tail(file));
    assert file == file[..LineStart(file)] + Tail(file);
  }

  lemma Utf8Lines(a: seq<Byte>, b: seq<Byte>)
    requires Clean(a)
    ensures Utf8(a + b) <==> Utf8(a) && Utf8(b)
  {
    assert (a + b)[..|a|] == a;
    if Utf8(a) {
      Utf8Append(a, b);
    } else if Utf8(a + b) {
      Utf8SplitsAfterAscii(a + b, |a| - 1);
    }
  }

  /** Replay of two pieces of a file split behind a newline. */
  lemma ReplayConcat<E>(c: Codec<E>, a: seq<Byte>, b: seq<Byte>)
    requires Clean(a)
    ensures Replay(c, a + b) == Append(Replay(c, a), Replay(c, b))
  {
    Utf8Lines(a, b);
    ReplayLinesConcat(c, a, b);
  }

  lemma ReplayTerminated<E>(c: Codec<E>, line: seq<Byte>)
    requires OneLine(line) && Utf8(line)
    ensures Replay(c, line + [NEWLINE]) == ReplayLine(c, line, true)
  {
    var newline: seq<Byte> := [NEWLINE];
    assert newline[1..] == [];
    Utf8Append(line, newline);
    ReplayFirstLine(c, line, []);
    assert line + newline + [] == line + newline;
    AppendAssociative(ReplayLine(c, line, true), Ok([]), Ok([]));
  }

  /** Repair changes nothing that replay can see, for every file whatsoever; it
      raises exactly when the tail is cut inside a character, and then replay
      raises as well. */
  lemma PrepareKeepsReplay<E(!new)>(c: Codec<E>, file: seq<Byte>)
    requires Lawful(c)
    ensures Prepare(c, file).Ok? <==> Utf8(Tail(file))
    ensures Prepare(c, file).Ok? ==>
      && Clean(Prepare(c, file).value)
      && Replay(c, Prepare(c, file).value) == Replay(c, file)
    ensures Prepare(c, file).Err? ==> Replay(c, file).Err?
  {
    SplitTail(file);
    var front, tail := file[..LineStart(file)], Tail(file);
    hide Replay, Utf8, LineStart, Tail, Clean, OneLine, Lawful;
    if Clean(file) {
      CleanHasNoTail(file);
    } else if !Utf8(tail) {
      CutTailBlocks(c, front, tail);
    } else if c.decode(tail).Some? {
      WholeTailKept(c, front, tail);
    } else {
      TornTailDropped(c, front, tail);
    }
  }

  /** A whole record without its newline gets it. */
  lemma WholeTailKept<E>(c: Codec<E>, front: seq<Byte>, tail: seq<Byte>)
    requires Clean(front) && OneLine(tail) && Utf8(tail) && c.decode(tail).Some?
    ensures Clean(front + tail + [NEWLINE])
    ensures Replay(c, front + tail + [NEWLINE]) == Replay(c, front + tail)
  {
    hide Replay, Utf8, OneLine, Append, ReplayLine;
    EndsClean(front + tail);
    assert front + tail + [NEWLINE] == front + (tail + [NEWLINE]);
    hide Clean;
    ReplayConcat(c, front, tail + [NEWLINE]);
    ReplayConcat(c, front, tail);
    ReplayTerminated(c, tail);
    TailReplays(c, tail);
    WholeTail(c, tail);
  }

  /** A torn record is dropped. */
  lemma TornTailDropped<E>(c: Codec<E>, front: seq<Byte>, tail: seq<Byte>)
    requires Clean(front) && OneLine(tail) && Utf8(tail) && c.decode(tail).None?
    ensures Replay(c, front) == Replay(c, front + tail)
  {
    hide Replay, Utf8, OneLine, Append, ReplayLine, Clean;
    ReplayConcat(c, front, tail);
    TailReplays(c, tail);
    TornTail(c, tail);
    AppendAssociative(Replay(c, front), Ok([]), Ok([]));
  }

  /** A character cut in two keeps the whole file from loading. */
  lemma CutTailBlocks<E>(c: Codec<E>, front: seq<Byte>, tail: seq<Byte>)
    requires Clean(front) && OneLine(tail) && !Utf8(tail)
    ensures Replay(c, front + tail).Err?
  {
    hide Replay, Utf8, OneLine, ReplayLine, Clean;
    ReplayConcat(c, front, tail);
    TailReplays(c, tail);
  }

  lemma CleanHasNoTail(file: seq<Byte>)
    requires Clean(file)
    ensures Tail(file) == [] && Utf8(Tail(file))
  {
  }

  lemma EndsClean(file: seq<Byte>)
    ensures Clean(file + [NEWLINE])
  {
  }

  lemma TailReplays<E>(c: Codec<E>, tail: seq<Byte>)
    requires OneLine(tail)
    ensures Replay(c, tail) == if Utf8(tail) then ReplayLine(c, tail, false) else Err
  {
    hide Utf8, ReplayLine;
    assert FirstNewline(tail) == |tail|;
  }

  lemma WholeTail<E>(c: Codec<E>, tail: seq<Byte>)
    requires c.decode(tail).Some?
    ensures ReplayLine(c, tail, true) == ReplayLine(c, tail, false)
  {
  }

  lemma TornTail<E>(c: Codec<E>, tail: seq<Byte>)
    requires c.decode(tail).None?
    ensures ReplayLine(c, tail, false) == Ok([])
  {
  }

  // ---------------------------------------------------------------- what a file says

  function Joined(lines: seq<seq<Byte>>): (s: seq<Byte>) {
    if lines == [] then [] else lines[0] + [NEWLINE] + Joined(lines[1..])
  }

  /** Every file is some terminated lines and a tail without a newline. */
  lemma {:induction false} FileHasLines(file: seq<Byte>) returns (lines: seq<seq<Byte>>, tail: seq<Byte>)
    ensures file == Joined(lines) + tail && OneLine(tail) && forall i :: 0 <= i < |lines| ==> OneLine(lines[i])
    decreases |file|
  {
    var n := FirstNewline(file);
    if n == |file| {
      return [], file;
    }
    var more;
    more, tail := FileHasLines(file[n + 1..]);
    lines := [file[..n]] + more;
    assert lines[1..] == more;
    assert file == file[..n] + [NEWLINE] + (Joined(more) + tail);
  }

  /** What the lines say that are neither blank nor undecodable, in order. */
  function Decoded<E>(c: Codec<E>, lines: seq<seq<Byte>>): (events: seq<E>) {
    if lines == [] then []
    else if Blank(lines[0]) || c.decode(lines[0]).None? then Decoded(c, lines[1..])
    else [c.decode(lines[0]).value] + Decoded(c, lines[1..])
  }

  ghost predicate Readable<E>(c: Codec<E>, line: seq<Byte>) {
    Blank(line) || c.decode(line).Some?
  }

  lemma {:induction false} LinesReplay<E>(c: Codec<E>, lines: seq<seq<Byte>>)
    requires forall i :: 0 <= i < |lines| ==> OneLine(lines[i])
    ensures ReplayLines(c, Joined(lines)) ==
            if forall i :: 0 <= i < |lines| ==> Readable(c, lines[i]) then Ok(Decoded(c, lines)) else Err
  {
    if lines != [] {
      var rest := lines[1..];
      LinesReplay(c, rest);
      ReplayFirstLine(c, lines[0], Joined(rest));
      assert Joined(lines) == lines[0] + [NEWLINE] + Joined(rest);
      assert (forall i :: 0 <= i < |lines| ==> Readable(c, lines[i])) <==>
             Readable(c, lines[0]) && forall i :: 0 <= i < |rest| ==> Readable(c, rest[i]) by {
        assert forall i :: 0 < i < |lines| ==> lines[i] == rest[i - 1];
        assert forall i :: 0 <= i < |rest| ==> rest[i] == lines[i + 1];
      }
      hide ReplayLines, Blank, Joined;
      assert [] + Decoded(c, rest) == Decoded(c, rest);
    }
  }

  /** A file loads exactly when it is text and each of its terminated lines is blank or
      decodes. What it yields is what the lines say, in order; a tail that does not decode is
      dropped. */
  lemma ReplayTells<E>(c: Codec<E>, lines: seq<seq<Byte>>, tail: seq<Byte>)
    requires OneLine(tail) && forall i :: 0 <= i < |lines| ==> OneLine(lines[i])
    ensures Replay(c, Joined(lines) + tail) ==
            if Utf8(Joined(lines) + tail) && forall i :: 0 <= i < |lines| ==> Readable(c, lines[i])
            then Ok(Decoded(c, lines + [tail])) else Err
  {
    LinesReplay(c, lines);
    JoinedClean(lines);
    ReplayLinesConcat(c, Joined(lines), tail);
    TailDecodes(c, tail);
    DecodedConcat(c, lines, [tail]);
    hide ReplayLines, Decoded, Joined, Readable, OneLine;
  }

  lemma TailDecodes<E>(c: Codec<E>, tail: seq<Byte>)
    requires OneLine(tail)
    ensures ReplayLines(c, tail) == Ok(Decoded(c, [tail]))
  {
    assert FirstNewline(tail) == |tail|;
    var none: seq<seq<Byte>> := [];
    assert [tail][1..] == none && Decoded(c, none) == [];
    assert Decoded(c, [tail]) == (if Blank(tail) || c.decode(tail).None? then [] else [c.decode(tail).value]);
    assert ReplayLines(c, tail) == ReplayLine(c, tail, false);
  }

  lemma {:induction false} DecodedConcat<E>(c: Codec<E>, a: seq<seq<Byte>>, b: seq<seq<Byte>>)
    ensures Decoded(c, a + b) == Decoded(c, a) + Decoded(c, b)
  {
    if a == [] {
      assert a + b == b;
    } else {
      assert (a + b)[1..] == a[1..] + b;
      DecodedConcat(c, a[1..], b);
    }
  }

  lemma {:induction false} JoinedClean(lines: seq<seq<Byte>>)
    ensures Clean(Joined(lines))
  {
    if lines != [] { JoinedClean(lines[1..]); }
  }

  // ---------------------------------------------------------------- appends and crashes

  /** How many records of the batch are whole (newline or not) within `cut` bytes. */
  function Survivors<E>(c: Codec<E>, batch: seq<E>, cut: nat): (n: nat)
    ensures n <= |batch|
  {
    if batch == [] || cut < |c.encode(batch[0])| then 0
    else if cut == |c.encode(batch[0])| then 1
    else 1 + Survivors(c, batch[1..], cut - |c.encode(batch[0])| - 1)
  }

  /** The unterminated bytes left behind the last newline by the cut. */
  function CutTail<E>(c: Codec<E>, batch: seq<E>, cut: nat): (tail: seq<Byte>) {
    if batch == [] then []
    else if cut <= |c.encode(batch[0])| then c.encode(batch[0])[..cut]
    else CutTail(c, batch[1..], cut - |c.encode(batch[0])| - 1)
  }

  /** Independent reading of Survivors: the first i records survive exactly when
      their text, except for the last newline, was written. */
  lemma {:induction false} SurvivorsCountsWholeRecords<E>(c: Codec<E>, batch: seq<E>, cut: nat, i: nat)
    requires forall k :: 0 <= k < |batch| ==> c.encode(batch[k]) != []
    requires i <= |batch|
    ensures i <= Survivors(c, batch, cut) <==> |Render(c, batch[..i])| <= cut + 1
  {
    if i > 0 {
      var n := |c.encode(batch[0])|;
      assert batch[..i][0] == batch[0] && batch[..i][1..] == batch[1..][..i - 1];
      if cut > n {
        SurvivorsCountsWholeRecords(c, batch[1..], cut - n - 1, i - 1);
      } else if i > 1 {
        assert batch[1..][..i - 1][0] == batch[1];
      }
    }
  }

  lemma ReplayRecord<E(!new)>(c: Codec<E>, e: E)
    requires Lawful(c)
    ensures Utf8(c.encode(e)) && OneLine(c.encode(e)) && c.encode(e) != []
    ensures Replay(c, c.encode(e)) == Replay(c, c.encode(e) + [NEWLINE]) == Ok([e])
  {
    var line := c.encode(e);
    assert LawfulRecord(c, e);
    assert !Blank(line) by { assert !Whitespace(line[0]); }
    ReplayTerminated(c, line);
  }

  lemma ReplayTornRecord<E(!new)>(c: Codec<E>, e: E, cut: nat)
    requires Lawful(c) && cut < |c.encode(e)|
    ensures Replay(c, c.encode(e)[..cut]) == if Utf8(c.encode(e)[..cut]) then Ok([]) else Err
  {
    assert LawfulRecord(c, e);
  }

  lemma ReplayCutFirst<E(!new)>(c: Codec<E>, batch: seq<E>, cut: nat)
    requires Lawful(c) && batch != [] && cut <= |c.encode(batch[0])|
    ensures cut <= |Render(c, batch)|
    ensures Replay(c, Render(c, batch)[..cut]) ==
            if Utf8(CutTail(c, batch, cut)) then Ok(batch[..Survivors(c, batch, cut)]) else Err
  {
    hide Lawful, Replay, Utf8;
    var line, rest := c.encode(batch[0]), Render(c, batch[1..]);
    ReplayRecord(c, batch[0]);
    assert Render(c, batch) == (line + [NEWLINE]) + rest;
    assert Survivors(c, batch, cut) == if cut == |line| then 1 else 0;
    assert CutTail(c, batch, cut) == line[..cut];
    hide Render, Survivors, CutTail;
    TakeInFirst(line + [NEWLINE], rest, cut);
    TakeInFirst(line, [NEWLINE], cut);
    if cut < |line| {
      ReplayTornRecord(c, batch[0], cut);
      assert batch[..0] == [];
    } else {
      assert line[..cut] == line && batch[..1] == [batch[0]];
    }
  }

  lemma CutBeyondFirst<E>(c: Codec<E>, batch: seq<E>, cut: nat)
    requires batch != [] && |c.encode(batch[0])| < cut <= |Render(c, batch)|
    ensures var line := c.encode(batch[0]);
            var left := cut - |line| - 1;
            && left <= |Render(c, batch[1..])|
            && Render(c, batch)[..cut] == (line + [NEWLINE]) + Render(c, batch[1..])[..left]
            && Survivors(c, batch, cut) == Survivors(c, batch[1..], left) + 1
            && CutTail(c, batch, cut) == CutTail(c, batch[1..], left)
  {
    var line, rest := c.encode(batch[0]), Render(c, batch[1..]);
    assert Render(c, batch) == (line + [NEWLINE]) + rest;
    TakeBeyondFirst(line + [NEWLINE], rest, cut);
  }

  lemma {:induction false} ReplayCutBatch<E(!new)>(c: Codec<E>, batch: seq<E>, cut: nat)
    requires Lawful(c) && cut <= |Render(c, batch)|
    ensures Replay(c, Render(c, batch)[..cut]) ==
            if Utf8(CutTail(c, batch, cut)) then Ok(batch[..Survivors(c, batch, cut)]) else Err
    decreases |batch|, 1
  {
    hide *;
    if batch == [] {
      NothingCut(c, batch, cut);
    } else if cut <= |c.encode(batch[0])| {
      ReplayCutFirst(c, batch, cut);
    } else {
      ReplayCutLater(c, batch, cut);
    }
  }

  lemma NothingCut<E>(c: Codec<E>, batch: seq<E>, cut: nat)
    requires batch == [] && cut <= |Render(c, batch)|
    ensures Replay(c, Render(c, batch)[..cut]) ==
            if Utf8(CutTail(c, batch, cut)) then Ok(batch[..Survivors(c, batch, cut)]) else Err
  {
    var nothing: seq<Byte> := [];
    assert Render(c, batch)[..cut] == nothing && CutTail(c, batch, cut) == nothing;
    assert Replay(c, nothing) == Ok([]);
  }

  lemma {:induction false} ReplayCutLater<E(!new)>(c: Codec<E>, batch: seq<E>, cut: nat)
    requires Lawful(c) && batch != [] && |c.encode(batch[0])| < cut <= |Render(c, batch)|
    ensures Replay(c, Render(c, batch)[..cut]) ==
            if Utf8(CutTail(c, batch, cut)) then Ok(batch[..Survivors(c, batch, cut)]) else Err
    decreases |batch|, 0
  {
    hide Lawful, Replay, Utf8, Render, Survivors, CutTail;
    var line := c.encode(batch[0]);
    var left := cut - |line| - 1;
    CutBeyondFirst(c, batch, cut);
    ReplayRecord(c, batch[0]);
    ReplayCutBatch(c, batch[1..], left);
    ReplayConcat(c, line + [NEWLINE], Render(c, batch[1..])[..left]);
    TakeOneMore(batch, Survivors(c, batch[1..], left));
  }

  /** One open-and-append, complete or killed after `cut` bytes of the write. */
  datatype Operation<E> =
    | AppendBatch(batch: seq<E>)
    | CrashedAppend(batch: seq<E>, cut: nat)
  {
    function Written(c: Codec<E>): (bytes: seq<Byte>) {
      var text := Render(c, batch);
      if CrashedAppend? && cut < |text| then text[..cut] else text
    }

    /** The prefix of the batch that became durable. */
    function Durable(c: Codec<E>): (events: seq<E>) {
      if CrashedAppend? && cut < |Render(c, batch)| then batch[..Survivors(c, batch, cut)] else batch
    }

    predicate CutOnCharacter(c: Codec<E>) {
      CrashedAppend? && cut < |Render(c, batch)| ==> Utf8(CutTail(c, batch, cut))
    }
  }

  lemma {:induction false} RenderLawful<E(!new)>(c: Codec<E>, batch: seq<E>)
    requires Lawful(c)
    ensures Clean(Render(c, batch))
    ensures Replay(c, Render(c, batch)) == Ok(batch)
  {
    hide Lawful;
    if batch != [] {
      var line, rest := c.encode(batch[0]), Render(c, batch[1..]);
      assert Render(c, batch) == (line + [NEWLINE]) + rest;
      hide Render, Replay, Utf8;
      RenderLawful(c, batch[1..]);
      ReplayRecord(c, batch[0]);
      ReplayConcat(c, line + [NEWLINE], rest);
      assert [batch[0]] + batch[1..] == batch;
    }
  }

  function Step<E>(c: Codec<E>, file: seq<Byte>, op: Operation<E>): (r: Result<seq<Byte>>) {
    match Prepare(c, file)
    case Err => Err
    case Ok(base) => Ok(base + op.Written(c))
  }

  function Run<E>(c: Codec<E>, file: seq<Byte>, ops: seq<Operation<E>>): (r: Result<seq<Byte>>)
    decreases |ops|
  {
    if ops == [] then Ok(file)
    else match Step(c, file, ops[0])
      case Err => Err
      case Ok(next) => Run(c, next, ops[1..])
  }

  function Contributions<E>(c: Codec<E>, ops: seq<Operation<E>>): (events: seq<E>) {
    if ops == [] then [] else ops[0].Durable(c) + Contributions(c, ops[1..])
  }

  lemma StepReplay<E(!new)>(c: Codec<E>, file: seq<Byte>, op: Operation<E>)
    requires Lawful(c) && Replay(c, file).Ok?
    ensures Step(c, file, op).Ok?
    ensures Replay(c, Step(c, file, op).value) ==
            if op.CutOnCharacter(c) then Ok(Replay(c, file).value + op.Durable(c)) else Err
  {
    PrepareKeepsReplay(c, file);
    var base := Prepare(c, file).value;
    var text := op.Written(c);
    if op.CrashedAppend? && op.cut < |Render(c, op.batch)| {
      ReplayCutBatch(c, op.batch, op.cut);
    } else {
      RenderLawful(c, op.batch);
    }
    ReplayConcat(c, base, text);
  }

  predicate CutsOnCharacters<E>(c: Codec<E>, ops: seq<Operation<E>>) {
    ops == [] || (ops[0].CutOnCharacter(c) && CutsOnCharacters(c, ops[1..]))
  }

  function Load<E>(c: Codec<E>, file: Result<seq<Byte>>): (r: Result<seq<E>>) {
    match file
    case Err => Err
    case Ok(bytes) => Replay(c, bytes)
  }

  /** Whole runs of appends and crashes from any readable file: when every cut
      falls between characters, a load yields the old events and then exactly the
      durable prefix of each batch in order; as soon as one cut falls inside a
      character, no later append or load succeeds. */
  lemma {:induction false} RunReplay<E(!new)>(c: Codec<E>, file: seq<Byte>, ops: seq<Operation<E>>)
    requires Lawful(c) && Replay(c, file).Ok?
    ensures Load(c, Run(c, file, ops)) ==
            if CutsOnCharacters(c, ops) then Ok(Replay(c, file).value + Contributions(c, ops)) else Err
    decreases |ops|
  {
    hide Replay, Step, Lawful, Operation.Durable, Operation.CutOnCharacter;
    var events := Replay(c, file).value;
    if ops == [] {
      assert events + [] == events;
    } else {
      StepReplay(c, file, ops[0]);
      var next := Step(c, file, ops[0]).value;
      assert Run(c, file, ops) == Run(c, next, ops[1..]);
      if ops[0].CutOnCharacter(c) {
        RunReplay(c, next, ops[1..]);
        assert events + (ops[0].Durable(c) + Contributions(c, ops[1..]))
            == events + ops[0].Durable(c) + Contributions(c, ops[1..]);
      } else {
        UnreadableStaysUnreadable(c, next, ops[1..]);
      }
    }
  }

  /** Nothing in the protocol repairs a file that does not load. */
  lemma {:induction false} UnreadableStaysUnreadable<E(!new)>(c: Codec<E>, file: seq<Byte>, ops: seq<Operation<E>>)
    requires Lawful(c) && Replay(c, file).Err?
    ensures Load(c, Run(c, file, ops)).Err?
    decreases |ops|
  {
    if ops != [] {
      PrepareKeepsReplay(c, file);
      if Prepare(c, file).Ok? {
        var base, text := Prepare(c, file).value, ops[0].Written(c);
        ReplayConcat(c, base, text);
        UnreadableStaysUnreadable(c, base + text, ops[1..]);
      }
    }
  }

  // ---------------------------------------------------------------- a concrete codec

  datatype Note = Plain | Accented

  /** Two one-line objects, one of them holding a two-byte character: the laws are
      satisfiable, and a cut inside a character is possible under them. */
  function NoteCodec(): (c: Codec<Note>) {
    Codec(
      (e: Note) => if e.Plain? then [OPEN_BRACE, CLOSE_BRACE] else [OPEN_BRACE, 0xC3, 0xA9, CLOSE_BRACE],
      (s: seq<Byte>) =>
        if s == [OPEN_BRACE, CLOSE_BRACE] then Some(Plain)
        else if s == [OPEN_BRACE, 0xC3, 0xA9, CLOSE_BRACE] then Some(Accented)
        else None)
  }

  lemma NoteCodecLawful()
    ensures Lawful(NoteCodec())
  {
    var c := NoteCodec();
    forall e: Note ensures LawfulRecord(c, e) {
      var text := c.encode(e);
      var close: seq<Byte> := [CLOSE_BRACE];
      assert close[1..] == [] && Utf8(close);
      if e.Plain? {
        assert text[1..] == close;
      } else {
        var letter: seq<Byte> := [0xC3, 0xA9, CLOSE_BRACE];
        assert text[1..] == letter && CharLength(letter) == 2 && letter[2..] == close;
      }
      forall k | 0 <= k < |text| ensures c.decode(text[..k]) == None {
        var prefix := text[..k];
        assert |prefix| == k;
        if e.Accented? && k == 2 { assert prefix[1] == 0xC3; }
      }
    }
    forall s | Blank(s) ensures c.decode(s) == None {
      if s != [] { assert Whitespace(s[0]); }
    }
  }

  /** The failing family is not empty: one write cut inside a two-byte character
      leaves a journal that neither reopens nor loads, whatever it held before. */
  lemma CutCharacterBlocksJournal(before: seq<Note>)
    ensures var c := NoteCodec();
            var file := Render(c, before) + [OPEN_BRACE, 0xC3];
            && Lawful(c)
            && Replay(c, Render(c, before)) == Ok(before)
            && Step(c, Render(c, before), CrashedAppend([Accented], 2)) == Ok(file)
            && Prepare(c, file).Err?
            && Replay(c, file).Err?
  {
    var c := NoteCodec();
    hide Replay, Lawful, Utf8;
    NoteCodecLawful();
    RenderLawful(c, before);
    var torn: seq<Byte> := [OPEN_BRACE, 0xC3];
    TornNote(torn);
    var file := Render(c, before) + torn;
    TailBehindCleanFile(Render(c, before), torn);
    PrepareKeepsReplay(c, file);
  }

  lemma TailBehindCleanFile(a: seq<Byte>, b: seq<Byte>)
    requires Clean(a) && OneLine(b)
    ensures Tail(a + b) == b
  {
    var r := LastNewline(a + b);
    assert a != [] ==> (a + b)[|a| - 1] == NEWLINE;
    assert forall i :: |a| <= i < |a + b| ==> (a + b)[i] == b[i - |a|];
  }

  lemma TornNote(torn: seq<Byte>)
    requires torn == [OPEN_BRACE, 0xC3]
    ensures !Utf8(torn)
    ensures CrashedAppend([Accented], 2).Written(NoteCodec()) == torn
  {
    assert torn[1..] == [0xC3] && CharLength([0xC3]) == 0;
    assert NoteCodec().encode(Accented)[..2] == torn;
  }

  // ---------------------------------------------------------------- the file object

  class Journal<E(!new)> {
    const codec: Codec<E>
    var data: seq<Byte>

    constructor (codec: Codec<E>, data: seq<Byte>)
      ensures this.codec == codec && this.data == data
    {
      this.codec := codec;
      this.data := data;
    }

    /** The backward scan in chunks of 4096 bytes finds exactly the last newline. */
    method FindLineStart() returns (start: nat)
      requires data != []
      ensures start == LineStart(data)
    {
      var cursor := |data|;
      start := 0;
      while cursor != 0
        invariant 0 <= cursor <= |data|
        invariant forall i :: cursor <= i < |data| ==> data[i] != NEWLINE
        invariant start == 0
      {
        var chunkStart := if cursor > SCAN_CHUNK then cursor - SCAN_CHUNK else 0;
        var chunk := data[chunkStart..cursor];
        var newline := LastNewline(chunk);
        assert forall i :: chunkStart <= i < cursor ==> data[i] == chunk[i - chunkStart];
        if newline != -1 {
          start := chunkStart + newline + 1;
          assert data[start - 1] == NEWLINE;
          assert forall i :: start <= i < cursor ==> data[i] == chunk[i - chunkStart];
          return;
        }
        cursor := chunkStart;
      }
    }

    method PrepareAppend() returns (ok: bool)
      modifies this`data
      ensures ok == Prepare(codec, old(data)).Ok?
      ensures data == if ok then Prepare(codec, old(data)).value else old(data)
    {
      var end := |data|;
      if end == 0 || data[end - 1] == NEWLINE {
        return true;
      }
      var start := FindLineStart();
      var tail := data[start..end];
      assert tail == Tail(data);
      if !Utf8(tail) {
        return false;
      }
      if codec.decode(tail).None? {
        data := data[..start];
      } else {
        data := data + [NEWLINE];
      }
      return true;
    }

    method WriteEvents(events: seq<E>)
      modifies this`data
      ensures data == old(data) + Render(codec, events)
    {
      var i := 0;
      while i < |events|
        invariant 0 <= i <= |events|
        invariant data + Render(codec, events[i..]) == old(data) + Render(codec, events)
      {
        data := data + (codec.encode(events[i]) + [NEWLINE]);
        assert events[i..][1..] == events[i + 1..];
        i := i + 1;
      }
      assert events[i..] == [];
    }

    method ReadRecords() returns (records: Result<seq<E>>)
      ensures records == Replay(codec, data)
    {
      if !Utf8(data) {
        return Err;
      }
      var position := 0;
      var found: seq<E> := [];
      assert data[0..] == data;
      AppendAssociative(ReplayLines(codec, data), Ok([]), Ok([]));
      while position < |data|
        invariant 0 <= position <= |data|
        invariant Append(Ok(found), ReplayLines(codec, data[position..])) == ReplayLines(codec, data)
      {
        var rest := data[position..];
        var n := FirstNewline(rest);
        if n == |rest| {
          var last := LineRecords(rest, false);
          return Ok(found + last.value);
        }
        var line := LineRecords(rest[..n], true);
        if line.Err? {
          return Err;
        }
        AppendAssociative(Ok(found), line, ReplayLines(codec, rest[n + 1..]));
        position := position + n + 1;
        assert rest[n + 1..] == data[position..];
        found := found + line.value;
      }
      assert data[position..] == [];
      AppendAssociative(Ok(found), Ok([]), Ok([]));
      return Ok(found);
    }

    method LineRecords(line: seq<Byte>, terminated: bool) returns (records: Result<seq<E>>)
      ensures records == ReplayLine(codec, line, terminated)
    {
      if Blank(line) {
        return Ok([]);
      }
      var event := codec.decode(line);
      if event.Some? {
        return Ok([event.value]);
      }
      return if terminated then Err else Ok([]);
    }
  }
}
