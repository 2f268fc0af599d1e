/** Bounded reading views: the artifact writer that splits long lines, and the pager
    that shows numbered lines within a budget of escaped characters. Text is what the
    text layer delivers, with newline translation done. */
module TextPaging {
  import opened Common

  const MaxToolResultChars: nat := 32 * 1024
  const MaxArtifactLineChars: nat := MaxToolResultChars / 8
  const DiscardChunkChars: nat := 8192
  const TruncatedLineNotice: string := " …（该行被截断）"

  // ---------------------------------------------------------------- escaped length

  /** Characters that one character takes inside a JSON string. */
  function Cost(c: char): (n: nat)
    ensures 1 <= n <= 6
  {
    if c in {'\"', '\\', '\n', '\r', '\t', '\U{8}', '\U{c}'} then 2
    else if c < ' ' then 6
    else 1
  }

  function EscapedLength(s: string): (n: nat)
    decreases |s|
  {
    if s == [] then 0 else EscapedLength(s[..|s| - 1]) + Cost(Last(s))
  }

  lemma {:induction false} EscapedConcat(a: string, b: string)
    ensures EscapedLength(a + b) == EscapedLength(a) + EscapedLength(b)
    decreases |b|
  {
    if b == [] {
      assert a + b == a;
    } else {
      assert (a + b)[..|a + b| - 1] == a + b[..|b| - 1];
      EscapedConcat(a, b[..|b| - 1]);
    }
  }

  lemma {:induction false} EscapedBounds(s: string)
    ensures |s| <= EscapedLength(s) <= 6 * |s|
    decreases |s|
  {
    if s != [] { EscapedBounds(s[..|s| - 1]); }
  }

  /** How a character is written inside a JSON string that keeps what is not ASCII. */
  function Escape(c: char): (s: string)
    ensures s != []
  {
    if c == '\"' then ['\\', '\"']
    else if c == '\\' then ['\\', '\\']
    else if c == '\n' then ['\\', 'n']
    else if c == '\r' then ['\\', 'r']
    else if c == '\t' then ['\\', 't']
    else if c == '\U{8}' then ['\\', 'b']
    else if c == '\U{c}' then ['\\', 'f']
    else if c < ' ' then ['\\', 'u', '0', '0', HexDigit(c as int / 16), HexDigit(c as int % 16)]
    else [c]
  }

  function HexDigit(n: nat): (c: char)
    requires n < 16
  {
    if n < 10 then ('0' as int + n) as char else ('a' as int + n - 10) as char
  }

  function Escaped(s: string): (r: string) {
    if s == [] then [] else Escape(s[0]) + Escaped(s[1..])
  }

  function HexValue(c: char): (n: Option<nat>) {
    if '0' <= c <= '9' then Some((c as int - '0' as int) as nat)
    else if 'a' <= c <= 'f' then Some((c as int - 'a' as int + 10) as nat)
    else None
  }

  /** What the letter behind a backslash stands for (section 7 of RFC 8259). */
  function Letter(c: char): (r: Option<char>) {
    match c
    case '\"' => Some('\"')
    case '\\' => Some('\\')
    case '/' => Some('/')
    case 'b' => Some('\U{8}')
    case 'f' => Some('\U{c}')
    case 'n' => Some('\n')
    case 'r' => Some('\r')
    case 't' => Some('\t')
    case _ => None
  }

  /** The first character of a JSON string's inside, and how much of it that takes; None when
      there is none. Of the numeric escapes, only those up to U+00FF are read. */
  function FirstRead(s: string): (r: Option<(char, nat)>)
    ensures r.Some? ==> 0 < r.value.1 <= |s|
  {
    if s == [] || s[0] == '\"' || s[0] < ' ' then None
    else if s[0] != '\\' then Some((s[0], 1))
    else if |s| > 1 && Letter(s[1]).Some? then Some((Letter(s[1]).value, 2))
    else if |s| > 5 && s[1] == 'u' && s[2] == '0' && s[3] == '0' && HexValue(s[4]).Some? && HexValue(s[5]).Some? then
      assert 0 <= HexValue(s[4]).value < 16 && 0 <= HexValue(s[5]).value < 16;
      Some(((HexValue(s[4]).value * 16 + HexValue(s[5]).value) as char, 6))
    else None
  }

  /** Reading the inside of a JSON string. */
  function ReadBack(s: string): (r: Option<string>)
    decreases |s|
  {
    if s == [] then Some([])
    else match FirstRead(s)
      case None => None
      case Some((c, n)) =>
        var rest := ReadBack(s[n..]);
        if rest.Some? then Some([c] + rest.value) else None
  }

  lemma EscapeReads(c: char, rest: string)
    ensures FirstRead(Escape(c) + rest) == Some((c, |Escape(c)|))
  {
  }

  /** The escaped length is that of the text as it stands inside a JSON string, from which it
      can be read back. */
  lemma {:induction false} EscapedIsJson(s: string)
    ensures |Escaped(s)| == EscapedLength(s) && ReadBack(Escaped(s)) == Some(s)
  {
    if s == [] {
    } else {
      var rest := Escaped(s[1..]);
      EscapedIsJson(s[1..]);
      EscapeReads(s[0], rest);
      CostOfOne(s[0]);
      EscapedConcat([s[0]], s[1..]);
      assert s == [s[0]] + s[1..];
      hide Escape, FirstRead, EscapedLength, Cost;
      assert (Escape(s[0]) + rest)[|Escape(s[0])|..] == rest;
    }
  }

  lemma CostOfOne(c: char)
    ensures EscapedLength([c]) == |Escape(c)|
  {
    assert [c][..0] == [];
  }

  // ---------------------------------------------------------------- line structure

  /** Index of the newline that ends the line at `i`, or the end of the text. */
  function LineEnd(text: string, i: nat): (e: nat)
    requires i <= |text|
    ensures i <= e <= |text|
    ensures forall j :: i <= j < e ==> text[j] != '\n'
    ensures e < |text| ==> text[e] == '\n'
    decreases |text| - i
  {
    if i < |text| && text[i] != '\n' then LineEnd(text, i + 1) else i
  }

  /** Where the next line starts. */
  function NextLine(text: string, i: nat): (n: nat)
    requires i <= |text|
    ensures i <= n <= |text|
    ensures i < |text| ==> i < n
  {
    if LineEnd(text, i) < |text| then LineEnd(text, i) + 1 else |text|
  }

  /** Where line `k` starts, counted from 0; the end of the text when there is none. */
  function Start(text: string, k: nat): (i: nat)
    ensures i <= |text|
  {
    if k == 0 then 0 else NextLine(text, Start(text, k - 1))
  }

  predicate HasLine(text: string, k: nat) {
    Start(text, k) < |text|
  }

  function LineText(text: string, k: nat): (s: string)
    ensures '\n' !in s
  {
    text[Start(text, k)..LineEnd(text, Start(text, k))]
  }

  lemma {:induction false} LinesAreInitial(text: string, j: nat, k: nat)
    requires j <= k && HasLine(text, k)
    ensures HasLine(text, j) && Start(text, j) <= Start(text, k) && (j < k ==> Start(text, j) < Start(text, k))
    decreases k - j
  {
    if j < k { LinesAreInitial(text, j, k - 1); }
  }

  /** The lines from `k` on, written down again. */
  function Spelled(text: string, k: nat): (s: string)
    decreases |text| - Start(text, k)
  {
    if !HasLine(text, k) then []
    else LineText(text, k) + (if Start(text, k) + |LineText(text, k)| < |text| then "\n" else "") + Spelled(text, k + 1)
  }

  lemma SplitAt(text: string, i: nat, e: nat)
    requires i <= e <= |text|
    ensures text[i..] == text[i..e] + text[e..]
    ensures e < |text| ==> text[i..] == text[i..e] + [text[e]] + text[e + 1..]
    ensures e == |text| ==> text[e..] == [] && text[i..] == text[i..e] + [] + text[e..]
  {
  }

  /** Nothing of a text is outside its lines. */
  lemma {:induction false} LinesSpellText(text: string, k: nat)
    ensures Spelled(text, k) == text[Start(text, k)..]
    decreases |text| - Start(text, k)
  {
    if HasLine(text, k) {
      var i, e := Start(text, k), LineEnd(text, Start(text, k));
      var line, next := LineText(text, k), Start(text, k + 1);
      assert next == NextLine(text, i) && line == text[i..e];
      LinesSpellText(text, k + 1);
      assert Spelled(text, k) == line + (if i + |line| < |text| then "\n" else "") + Spelled(text, k + 1);
      hide Start, LineEnd, Spelled, LineText;
      SplitAt(text, i, e);
    }
  }

  // ---------------------------------------------------------------- the artifact writer

  /** The reference: a column counter that breaks the line when it is full and more is
      to come. */
  function Wrap(s: string, col: nat): (r: string)
    requires col <= MaxArtifactLineChars
  {
    if s == [] then []
    else if s[0] == '\n' then ['\n'] + Wrap(s[1..], 0)
    else if col == MaxArtifactLineChars then ['\n', s[0]] + Wrap(s[1..], 1)
    else [s[0]] + Wrap(s[1..], col + 1)
  }

  /** `r` is `s` with nothing but newlines inserted. */
  ghost predicate OnlyNewlinesInserted(s: string, r: string) {
    if r == [] then s == []
    else
      || (s != [] && s[0] == r[0] && OnlyNewlinesInserted(s[1..], r[1..]))
      || (r[0] == '\n' && OnlyNewlinesInserted(s, r[1..]))
  }

  lemma WrapStep(s: string, col: nat)
    requires s != [] && col <= MaxArtifactLineChars
    ensures var r := Wrap(s, col);
            if s[0] == '\n' then r != [] && r[0] == '\n' && r[1..] == Wrap(s[1..], 0)
            else if col == MaxArtifactLineChars then
              |r| > 1 && r[0] == '\n' && r[1..] != [] && r[1..][0] == s[0] && r[1..][1..] == Wrap(s[1..], 1)
            else r != [] && r[0] == s[0] && r[1..] == Wrap(s[1..], col + 1)
  {
    if s[0] != '\n' && col == MaxArtifactLineChars {
      var rest := Wrap(s[1..], 1);
      assert Wrap(s, col) == ['\n', s[0]] + rest;
      assert (['\n', s[0]] + rest)[1..] == [s[0]] + rest;
    }
  }

  lemma {:induction false} WrapInserts(s: string, col: nat)
    requires col <= MaxArtifactLineChars
    ensures OnlyNewlinesInserted(s, Wrap(s, col))
  {
    if s != [] {
      WrapStep(s, col);
      if s[0] == '\n' {
        WrapInserts(s[1..], 0);
      } else if col == MaxArtifactLineChars {
        WrapInserts(s[1..], 1);
        hide Wrap;
        var rest := Wrap(s, col)[1..];
        assert rest[0] == s[0] && OnlyNewlinesInserted(s, rest);
      } else {
        WrapInserts(s[1..], col + 1);
      }
      hide Wrap;
    }
  }

  /** No line of `s` is longer than the bound, when `col` characters of its first
      line came before. */
  predicate Bounded(s: string, col: nat) {
    if s == [] then true
    else if s[0] == '\n' then Bounded(s[1..], 0)
    else col < MaxArtifactLineChars && Bounded(s[1..], col + 1)
  }

  lemma {:induction false} WrapBounds(s: string, col: nat)
    requires col <= MaxArtifactLineChars
    ensures Bounded(Wrap(s, col), col)
  {
    if s != [] {
      WrapStep(s, col);
      if s[0] == '\n' {
        WrapBounds(s[1..], 0);
      } else if col == MaxArtifactLineChars {
        WrapBounds(s[1..], 1);
        hide Wrap;
        assert Bounded(Wrap(s, col)[1..], 0);
      } else {
        WrapBounds(s[1..], col + 1);
      }
      hide Wrap;
    }
  }

  /** A text is left as it is exactly when its lines are short enough; in particular
      writing an artifact again changes nothing. */
  lemma {:induction false} WrapKeepsBounded(s: string, col: nat)
    requires col <= MaxArtifactLineChars
    ensures Wrap(s, col) == s <==> Bounded(s, col)
    ensures |Wrap(s, col)| >= |s|
  {
    if s != [] {
      var rest := if s[0] == '\n' then 0 else if col == MaxArtifactLineChars then 1 else col + 1;
      WrapKeepsBounded(s[1..], rest);
      assert s == [s[0]] + s[1..];
      if s[0] == '\n' || col < MaxArtifactLineChars {
        assert Wrap(s, col)[1..] == Wrap(s[1..], rest);
      }
    }
  }

  /** Every line of a bounded text, by its index, is within the bound. */
  lemma {:induction false} BoundedLines(text: string, i: nat)
    requires i <= |text| && Bounded(text[i..], 0)
    ensures LineEnd(text, i) - i <= MaxArtifactLineChars
    ensures Bounded(text[NextLine(text, i)..], 0)
  {
    BoundedColumn(text, i, 0);
  }

  lemma {:induction false} BoundedColumn(text: string, i: nat, col: nat)
    requires i <= |text| && Bounded(text[i..], col) && col <= MaxArtifactLineChars
    ensures col + LineEnd(text, i) - i <= MaxArtifactLineChars
    ensures Bounded(text[NextLine(text, i)..], 0)
    decreases |text| - i
  {
    if i < |text| {
      assert text[i..][1..] == text[i + 1..];
      if text[i] != '\n' { BoundedColumn(text, i + 1, col + 1); }
    }
  }

  lemma {:induction false} BoundedLine(text: string, k: nat)
    requires Bounded(text, 0)
    ensures Bounded(text[Start(text, k)..], 0)
    ensures HasLine(text, k) ==> |LineText(text, k)| <= MaxArtifactLineChars
  {
    if k > 0 {
      BoundedLine(text, k - 1);
      BoundedLines(text, Start(text, k - 1));
    } else {
      assert text[0..] == text;
    }
    BoundedLines(text, Start(text, k));
  }

  /** What readline(n) takes from position `i`. */
  function ReadTo(text: string, i: nat, n: nat): (e: nat)
    requires i <= |text|
    ensures i <= e <= NextLine(text, i) && e - i <= n
    ensures e == NextLine(text, i) || e - i == n
  {
    if NextLine(text, i) - i <= n then NextLine(text, i) else i + n
  }

  class TextFile {
    const text: string
    var pos: nat

    constructor (text: string)
      ensures this.text == text && pos == 0
    {
      this.text, pos := text, 0;
    }

    method ReadLine(n: nat) returns (chunk: string)
      requires pos <= |text|
      modifies this
      ensures pos == ReadTo(text, old(pos), n) && chunk == text[old(pos)..pos]
    {
      var end := ReadTo(text, pos, n);
      chunk := text[pos..end];
      pos := end;
    }
  }

  lemma {:induction false} WrapFits(line: string, rest: string, col: nat)
    requires col + |line| <= MaxArtifactLineChars && '\n' !in line
    ensures Wrap(line + rest, col) == line + Wrap(rest, col + |line|)
  {
    if line == [] {
      assert line + rest == rest;
    } else {
      assert (line + rest)[1..] == line[1..] + rest;
      WrapFits(line[1..], rest, col + 1);
    }
  }

  /** One round of the loop: what is written for `chunk`, and what is left. */
  lemma WrapChunk(chunk: string, rest: string)
    requires chunk != [] && Chunk(chunk, rest == [])
    ensures if |chunk| > MaxArtifactLineChars && Last(chunk) != '\n'
            then Wrap(chunk + rest, 0) == chunk[..MaxArtifactLineChars] + "\n"
              + Wrap(chunk[MaxArtifactLineChars..] + rest, 0)
                 && |chunk[MaxArtifactLineChars..]| == 1 && '\n' !in chunk[MaxArtifactLineChars..]
            else Wrap(chunk + rest, 0) == chunk + Wrap(rest, 0)
  {
    var last, front := Last(chunk), chunk[..|chunk| - 1];
    assert chunk == front + [last] && '\n' !in front;
    assert chunk + rest == front + ([last] + rest);
    WrapFits(front, [last] + rest, 0);
    WrapLast(last, rest, |front|);
    hide Wrap;
    if last == '\n' {
      Associative(front, [last], Wrap(rest, 0));
    } else if |chunk| > MaxArtifactLineChars {
      assert chunk[MaxArtifactLineChars..] == [last] && chunk[..MaxArtifactLineChars] == front;
      Associative(front, "\n", Wrap([last] + rest, 0));
    } else {
      Associative(front, [last], Wrap(rest, 0));
    }
  }

  /** What becomes of the last character of a chunk that stands in column `col`. */
  lemma WrapLast(last: char, rest: string, col: nat)
    requires col <= MaxArtifactLineChars
    requires last != '\n' && col < MaxArtifactLineChars ==> rest == []
    ensures Wrap([last] + rest, col) ==
            if last != '\n' && col == MaxArtifactLineChars then "\n" + Wrap([last] + rest, 0)
            else [last] + Wrap(rest, 0)
  {
    assert ([last] + rest)[1..] == rest;
    if last != '\n' && col == MaxArtifactLineChars {
      assert Wrap([last] + rest, col) == "\n" + ([last] + Wrap(rest, 1));
    }
  }

  /** A chunk that bounded reads can leave in the loop: a newline at most at its end,
      and the end of the text behind it when it is short and has none. */
  ghost predicate Chunk(chunk: string, atEnd: bool) {
    && |chunk| <= MaxArtifactLineChars + 1
    && (chunk != [] ==> '\n' !in chunk[..|chunk| - 1])
    && (chunk == [] || (|chunk| <= MaxArtifactLineChars && Last(chunk) != '\n') ==> atEnd)
  }

  lemma ReadChunk(text: string, i: nat, head: string)
    requires i <= |text| && |head| <= 1 && '\n' !in head
    ensures var e := ReadTo(text, i, MaxArtifactLineChars + 1 - |head|);
            && Chunk(head + text[i..e], e == |text|)
            && head + text[i..] == head + text[i..e] + text[e..]
  {
    var e := ReadTo(text, i, MaxArtifactLineChars + 1 - |head|);
    var chunk := head + text[i..e];
    forall k | 0 <= k < |chunk| - 1 ensures chunk[k] != '\n' {
      assert k >= |head| ==> chunk[k] == text[i + k - |head|];
    }
  }

  lemma ReadFirstChunk(text: string, i: nat)
    requires i <= |text|
    ensures var e := ReadTo(text, i, MaxArtifactLineChars + 1);
            Chunk(text[i..e], e == |text|) && text[i..] == text[i..e] + text[e..]
  {
  }

  /** The writer's loop over bounded reads is the column counter. */
  method WriteTextArtifact(source: TextFile) returns (written: string, size: nat)
    requires source.pos == 0
    modifies source
    ensures written == Wrap(source.text, 0) && size == |written|
  {
    hide Wrap, ReadTo, Chunk;
    written, size := [], 0;
    var text := source.text;
    ReadFirstChunk(text, 0);
    var chunk := source.ReadLine(MaxArtifactLineChars + 1);
    assert text[0..] == text;
    while chunk != []
      invariant source.pos <= |text| && size == |written|
      invariant Wrap(text, 0) == written + Wrap(chunk + text[source.pos..], 0)
      invariant Chunk(chunk, source.pos == |text|)
      decreases |text| - source.pos + |chunk|
    {
      var line;
      line, chunk := WriteChunk(source, chunk);
      written := written + line;
      size := size + |line|;
    }
    ChunkEnds(source.pos == |text|);
    assert chunk + text[source.pos..] == [];
  }

  lemma ChunkEnds(atEnd: bool)
    requires Chunk([], atEnd)
    ensures atEnd && Wrap([], 0) == []
  {
  }

  /** A long line: its next full piece is written, the last character stays. */
  lemma LongRound(text: string, i: nat, chunk: string)
    requires i <= |text| && Chunk(chunk, i == |text|) && |chunk| > MaxArtifactLineChars && Last(chunk) != '\n'
    ensures var e, head := ReadTo(text, i, MaxArtifactLineChars), chunk[MaxArtifactLineChars..];
            && |head| == 1 && Chunk(head + text[i..e], e == |text|)
            && Wrap(chunk + text[i..], 0) == chunk[..MaxArtifactLineChars] + "\n"
               + Wrap(head + text[i..e] + text[e..], 0)
  {
    assert text[i..] == [] <==> i == |text|;
    hide Wrap, Chunk, ReadTo;
    WrapChunk(chunk, text[i..]);
    ReadChunk(text, i, chunk[MaxArtifactLineChars..]);
  }

  lemma LineRound(text: string, i: nat, chunk: string)
    requires i <= |text| && chunk != [] && Chunk(chunk, i == |text|)
    requires |chunk| <= MaxArtifactLineChars || Last(chunk) == '\n'
    ensures var e := ReadTo(text, i, MaxArtifactLineChars + 1);
            && Chunk(text[i..e], e == |text|)
            && Wrap(chunk + text[i..], 0) == chunk + Wrap(text[i..e] + text[e..], 0)
  {
    assert text[i..] == [] <==> i == |text|;
    var e := ReadTo(text, i, MaxArtifactLineChars + 1);
    hide Wrap, Chunk, ReadTo;
    WrapChunk(chunk, text[i..]);
    ReadFirstChunk(text, i);
  }

  /** One round: a full piece of a long line, or the rest of a line. */
  method WriteChunk(source: TextFile, chunk: string) returns (line: string, next: string)
    requires source.pos <= |source.text| && chunk != [] && Chunk(chunk, source.pos == |source.text|)
    modifies source
    ensures source.pos <= |source.text| && Chunk(next, source.pos == |source.text|)
    ensures Wrap(chunk + source.text[old(source.pos)..], 0) == line + Wrap(next + source.text[source.pos..], 0)
    ensures |source.text| - source.pos + |next| < |source.text| - old(source.pos) + |chunk|
  {
    hide Wrap, ReadTo, Chunk;
    if |chunk| > MaxArtifactLineChars && Last(chunk) != '\n' {
      LongRound(source.text, source.pos, chunk);
      line := chunk[..MaxArtifactLineChars] + "\n";
      var more := source.ReadLine(MaxArtifactLineChars);
      next := chunk[MaxArtifactLineChars..] + more;
    } else {
      LineRound(source.text, source.pos, chunk);
      line := chunk;
      next := source.ReadLine(MaxArtifactLineChars + 1);
    }
  }

  // ---------------------------------------------------------------- what an artifact is

  /** Lines are written one by one: a line break is kept and starts a new count. */
  lemma {:induction false} WrapByLine(line: string, rest: string, col: nat)
    requires col <= MaxArtifactLineChars && '\n' !in line
    ensures Wrap(line + "\n" + rest, col) == Wrap(line, col) + "\n" + Wrap(rest, 0)
  {
    if line == [] {
      assert line + "\n" + rest == "\n" + rest;
    } else {
      assert (line + "\n" + rest)[1..] == line[1..] + "\n" + rest;
      WrapByLine(line[1..], rest, if col == MaxArtifactLineChars then 1 else col + 1);
    }
  }

  /** A line of up to 4096 characters stays as it is. A longer one is broken behind exactly
      that many, and goes on with what is left. */
  lemma WrapOneLine(line: string)
    requires '\n' !in line
    ensures |line| <= MaxArtifactLineChars ==> Wrap(line, 0) == line
    ensures |line| > MaxArtifactLineChars ==>
              Wrap(line, 0) == line[..MaxArtifactLineChars] + "\n" + Wrap(line[MaxArtifactLineChars..], 0)
    ensures MaxArtifactLineChars == 4096
  {
    hide Wrap;
    if |line| <= MaxArtifactLineChars {
      WrapShortLine(line);
    } else {
      WrapLongLine(line[..MaxArtifactLineChars], line[MaxArtifactLineChars..], line);
    }
  }

  lemma WrapShortLine(line: string)
    requires '\n' !in line && |line| <= MaxArtifactLineChars
    ensures Wrap(line, 0) == line
  {
    hide Wrap;
    WrapFits(line, [], 0);
    WrapNothing(|line|);
    assert line + [] == line;
  }

  lemma WrapLongLine(head: string, tail: string, line: string)
    requires line == head + tail && '\n' !in line && tail != [] && |head| == MaxArtifactLineChars
    ensures Wrap(line, 0) == head + "\n" + Wrap(tail, 0)
  {
    assert tail[0] in line;
    assert forall i :: 0 <= i < |head| ==> head[i] == line[i];
    hide *;
    WrapFits(head, tail, 0);
    WrapBreaks(tail);
    Associative(head, "\n", Wrap(tail, 0));
  }

  lemma WrapNothing(col: nat)
    requires col <= MaxArtifactLineChars
    ensures Wrap([], col) == []
  {
  }

  lemma WrapBreaks(s: string)
    requires s != [] && s[0] != '\n'
    ensures Wrap(s, MaxArtifactLineChars) == "\n" + Wrap(s, 0)
  {
  }

  // ---------------------------------------------------------------- line numbers

  function Prefix(number: nat): (s: string)
    ensures |s| >= 3 && forall i :: 0 <= i < |s| ==> ' ' <= s[i] && s[i] !in {'\"', '\\'}
  {
    Decimal(number) + "| "
  }

  lemma {:induction false} PlainLength(s: string)
    requires forall i :: 0 <= i < |s| ==> ' ' <= s[i] && s[i] !in {'\"', '\\'}
    ensures EscapedLength(s) == |s|
    decreases |s|
  {
    if s != [] { PlainLength(s[..|s| - 1]); }
  }

  const NoticeChars: nat := 9

  lemma NoticeLength()
    ensures EscapedLength(TruncatedLineNotice) == |TruncatedLineNotice| == NoticeChars
  {
    PlainLength(TruncatedLineNotice);
  }

  // ---------------------------------------------------------------- trimming

  /** How many characters of `line` fit, tried from `i` on. */
  function Fitting(line: string, room: nat, i: nat): (n: nat)
    requires i <= |line|
    ensures i <= n <= |line|
    decreases |line| - i
  {
    if i < |line| && EscapedLength(line[..i + 1]) <= room then Fitting(line, room, i + 1) else i
  }

  function Trim(line: string, room: nat): (s: string) {
    line[..Fitting(line, room, 0)]
  }

  /** The trimmed line fits, and no longer prefix of the line does. */
  lemma {:induction false} FittingIsLongest(line: string, room: nat, i: nat, n: nat)
    requires i <= |line| && EscapedLength(line[..i]) <= room && n <= |line|
    ensures EscapedLength(line[..Fitting(line, room, i)]) <= room
    ensures Fitting(line, room, i) < n ==> EscapedLength(line[..n]) > room
    decreases |line| - i
  {
    if i < |line| && EscapedLength(line[..i + 1]) <= room {
      FittingIsLongest(line, room, i + 1, n);
    } else if i < n {
      assert line[..n] == line[..i + 1] + line[i + 1..n];
      EscapedConcat(line[..i + 1], line[i + 1..n]);
    }
  }

  /** Reading no more than `m` characters of the line first does not matter. */
  lemma {:induction false} FittingOfCut(line: string, m: nat, room: nat, i: nat)
    requires room < m <= |line| && i <= m && EscapedLength(line[..i]) <= room
    ensures Fitting(line[..m], room, i) == Fitting(line, room, i) < m
    decreases m - i
  {
    EscapedBounds(line[..i]);
    assert i < m;
    assert line[..m][..i + 1] == line[..i + 1];
    if EscapedLength(line[..i + 1]) <= room { FittingOfCut(line, m, room, i + 1); }
  }

  method TrimToEscaped(line: string, room: nat) returns (kept: string)
    ensures kept == Trim(line, room)
  {
    var used := 0;
    var i := 0;
    while i < |line|
      invariant i <= |line| && used == EscapedLength(line[..i]) <= room
      invariant Fitting(line, room, 0) == Fitting(line, room, i)
    {
      assert line[..i + 1][..i] == line[..i] && Last(line[..i + 1]) == line[i];
      var cost := Cost(line[i]);
      if used + cost > room { return line[..i]; }
      used := used + cost;
      i := i + 1;
    }
    assert line[..|line|] == line;
    return line;
  }

  // ---------------------------------------------------------------- pages

  /** One answer of the pager: the numbered lines it shows, and where to go on. */
  datatype Page = Page(shown: seq<string>, eof: bool, next: Option<nat>, limited: bool)

  /** Line `k`, counted from 0, with its number. */
  function Numbered(text: string, k: nat): (s: string) {
    Prefix(k + 1) + LineText(text, k)
  }

  function NumberedLines(text: string, k: nat, n: nat): (r: seq<string>)
    ensures |r| == n
  {
    if n == 0 then [] else NumberedLines(text, k, n - 1) + [Numbered(text, k + n - 1)]
  }

  function Join(lines: seq<string>): (s: string)
    decreases |lines|
  {
    if lines == [] then []
    else if |lines| == 1 then lines[0]
    else Join(lines[..|lines| - 1]) + "\n" + Last(lines)
  }

  /** What the body of a page costs. */
  function BodyCost(lines: seq<string>): (n: nat) {
    EscapedLength(Join(lines))
  }

  /** Characters left for the text of the next line behind `n` lines from `k`. */
  function Room(text: string, k: nat, n: nat, budget: int): (r: int) {
    budget - BodyCost(NumberedLines(text, k, n)) - (if n > 0 then 2 else 0) - |Prefix(k + n + 1)|
  }

  predicate Fits(text: string, k: nat, n: nat, budget: int) {
    && HasLine(text, k + n)
    && Room(text, k, n, budget) >= NoticeChars
    && EscapedLength(LineText(text, k + n)) <= Room(text, k, n, budget)
  }

  /** How many whole lines one page takes, counted on from `n`. */
  function Whole(text: string, k: nat, limit: nat, budget: int, n: nat): (r: nat)
    requires n <= limit
    ensures n <= r <= limit
    ensures forall j :: n <= j < r ==> Fits(text, k, j, budget)
    ensures r < limit ==> !Fits(text, k, r, budget)
    decreases limit - n
  {
    if n < limit && Fits(text, k, n, budget) then Whole(text, k, limit, budget, n + 1) else n
  }

  /** No newline ends line `k`. */
  predicate Unterminated(text: string, k: nat) {
    LineEnd(text, Start(text, k)) == |text|
  }

  /** A line too long for a page of its own. */
  function Shortened(text: string, k: nat, budget: int): (s: string)
    requires Room(text, k, 0, budget) >= NoticeChars
  {
    Prefix(k + 1) + (Trim(LineText(text, k), Room(text, k, 0, budget) - NoticeChars) + TruncatedLineNotice)
  }

  /** How a page ends behind `n` whole lines. */
  function Ending(text: string, k: nat, limit: nat, budget: int, n: nat): (p: Page)
    requires n <= limit
  {
    var lines := NumberedLines(text, k, n);
    if n > 0 && Unterminated(text, k + n - 1) then Page(lines, true, None, false)
    else if n == limit then
      if HasLine(text, k + n) then Page(lines, false, Some(k + n + 1), false) else Page(lines, true, None, false)
    else if Room(text, k, n, budget) < NoticeChars then Page(lines, false, Some(k + n + 1), true)
    else if !HasLine(text, k + n) then Page(lines, true, None, false)
    else if n > 0 then Page(lines, false, Some(k + n + 1), true)
    else if Unterminated(text, k) then Page([Shortened(text, k, budget)], true, None, true)
    else Page([Shortened(text, k, budget)], false, Some(k + 2), true)
  }

  /** The page that starts with line `k`. */
  function PageAt(text: string, k: nat, limit: nat, budget: int): (p: Page) {
    Ending(text, k, limit, budget, Whole(text, k, limit, budget, 0))
  }

  lemma JoinSnoc(lines: seq<string>, line: string)
    ensures BodyCost(lines + [line]) == BodyCost(lines) + (if lines == [] then 0 else 2) + EscapedLength(line)
  {
    var all := lines + [line];
    assert all[..|all| - 1] == lines && Last(all) == line;
    if lines == [] {
      assert Join(all) == line;
    } else {
      EscapedConcat(Join(lines) + "\n", line);
      EscapedConcat(Join(lines), "\n");
      assert EscapedLength("\n") == EscapedLength([]) + Cost('\n') by { assert "\n"[..0] == []; }
    }
  }

  lemma NumberedCost(number: nat, line: string)
    ensures EscapedLength(Prefix(number) + line) == |Prefix(number)| + EscapedLength(line)
  {
    EscapedConcat(Prefix(number), line);
    PlainLength(Prefix(number));
  }

  /** One more whole line takes its text out of the room. */
  lemma BodyGrows(text: string, k: nat, n: nat, budget: int)
    ensures BodyCost(NumberedLines(text, k, n + 1)) ==
            budget - Room(text, k, n, budget) + EscapedLength(LineText(text, k + n))
  {
    hide Prefix, BodyCost, LineText;
    JoinSnoc(NumberedLines(text, k, n), Numbered(text, k + n));
    NumberedCost(k + n + 1, LineText(text, k + n));
  }

  lemma ShortenedFits(text: string, k: nat, budget: int)
    requires Room(text, k, 0, budget) >= NoticeChars
    ensures BodyCost([Shortened(text, k, budget)]) <= budget
  {
    hide Prefix, LineText;
    var room := Room(text, k, 0, budget) - NoticeChars;
    var line := LineText(text, k);
    assert line[..0] == [];
    FittingIsLongest(line, room, 0, 0);
    NoticeLength();
    EscapedConcat(Trim(line, room), TruncatedLineNotice);
    NumberedCost(k + 1, Trim(line, room) + TruncatedLineNotice);
    EmptyBody();
  }

  lemma EmptyBody()
    ensures BodyCost([]) == 0
  {
  }

  /** No page costs more than its budget, or has more lines than asked for. */
  lemma PageWithinBudget(text: string, k: nat, limit: nat, budget: nat)
    ensures var p := PageAt(text, k, limit, budget);
            BodyCost(p.shown) <= budget && |p.shown| <= limit
  {
    hide LineText, BodyCost, Shortened, Whole, Prefix, HasLine, Unterminated, EscapedLength;
    var n := Whole(text, k, limit, budget, 0);
    EmptyBody();
    NoLinesYet(text, k);
    if n > 0 {
      assert Fits(text, k, n - 1, budget);
      BodyGrows(text, k, n - 1, budget);
    }
    if Room(text, k, 0, budget) >= NoticeChars { ShortenedFits(text, k, budget); }
  }

  /** Not even a cut line fits behind `shown`: there is no room for its number and the notice. */
  ghost predicate NoRoom(shown: seq<string>, number: nat, budget: int) {
    BodyCost(shown + [Prefix(number)]) + NoticeChars > budget
  }

  /** Why a page ends where it does. Without the mark of the character limit it shows whole
      lines, as many as asked for or all that are left. With it, either fewer whole lines, and
      the next one does not fit behind them, or a single line too long for a page of its own. */
  ghost predicate StopsRightly(text: string, k: nat, limit: nat, budget: int, p: Page) {
    var n := |p.shown|;
    if !p.limited then
      p.shown == NumberedLines(text, k, n) && if HasLine(text, k + n) then n == limit && !p.eof else p.eof
    else
      || (&& n < limit && !p.eof && p.shown == NumberedLines(text, k, n)
          && (NoRoom(p.shown, k + n + 1, budget)
              || (n > 0 && HasLine(text, k + n) && BodyCost(p.shown + [Numbered(text, k + n)]) > budget)))
      || (&& n == 1 && HasLine(text, k) && (p.eof <==> Unterminated(text, k))
          && BodyCost([Numbered(text, k)]) > budget)
  }

  lemma PageStopsExactly(text: string, k: nat, limit: nat, budget: int)
    ensures StopsRightly(text, k, limit, budget, PageAt(text, k, limit, budget))
  {
    hide *;
    var n := Whole(text, k, limit, budget, 0);
    WholeStays(text, k, limit, budget);
    if n > 0 { LineAdvances(text, k, n); }
    if n > 0 && Unterminated(text, k + n - 1) {
      LastLine(text, k, limit, budget, n);
      StopsWhole(text, k, limit, budget, n, PageAt(text, k, limit, budget));
    } else if n == limit {
      Full(text, k, limit, budget);
      StopsWhole(text, k, limit, budget, n, PageAt(text, k, limit, budget));
    } else if Room(text, k, n, budget) < NoticeChars {
      Tight(text, k, limit, budget, n);
      StopsShort(text, k, limit, budget, n, PageAt(text, k, limit, budget));
    } else if !HasLine(text, k + n) {
      NoMore(text, k, limit, budget, n);
      StopsWhole(text, k, limit, budget, n, PageAt(text, k, limit, budget));
    } else {
      NoFit(text, k, limit, budget, n);
      NotFitting(text, k, n, budget);
      if n > 0 {
        StopsShort(text, k, limit, budget, n, PageAt(text, k, limit, budget));
      } else {
        StopsCut(text, k, limit, budget, PageAt(text, k, limit, budget));
      }
    }
  }

  lemma NotFitting(text: string, k: nat, n: nat, budget: int)
    requires HasLine(text, k + n) && Room(text, k, n, budget) >= NoticeChars && !Fits(text, k, n, budget)
    ensures EscapedLength(LineText(text, k + n)) > Room(text, k, n, budget)
  {
  }

  lemma StopsWhole(text: string, k: nat, limit: nat, budget: int, n: nat, p: Page)
    requires p.shown == NumberedLines(text, k, n) && !p.limited
    requires if HasLine(text, k + n) then n == limit && !p.eof else p.eof
    ensures StopsRightly(text, k, limit, budget, p)
  {
    hide NumberedLines, HasLine;
  }

  lemma StopsShort(text: string, k: nat, limit: nat, budget: int, n: nat, p: Page)
    requires p.shown == NumberedLines(text, k, n) && p.limited && !p.eof && n < limit
    requires Room(text, k, n, budget) < NoticeChars
             || (n > 0 && HasLine(text, k + n) && EscapedLength(LineText(text, k + n)) > Room(text, k, n, budget))
    ensures StopsRightly(text, k, limit, budget, p)
  {
    NextCosts(text, k, n, budget);
    hide NumberedLines, HasLine, Prefix, BodyCost, Numbered, Room, LineText, EscapedLength;
  }

  lemma StopsCut(text: string, k: nat, limit: nat, budget: int, p: Page)
    requires |p.shown| == 1 && p.limited && HasLine(text, k) && (p.eof <==> Unterminated(text, k))
    requires EscapedLength(LineText(text, k)) > Room(text, k, 0, budget)
    ensures StopsRightly(text, k, limit, budget, p)
  {
    NextCosts(text, k, 0, budget);
    NoLinesYet(text, k);
    assert [] + [Numbered(text, k)] == [Numbered(text, k)];
    hide NumberedLines, HasLine, Prefix, BodyCost, Numbered, Room, LineText, EscapedLength, Unterminated;
  }

  lemma WholeStays(text: string, k: nat, limit: nat, budget: int)
    ensures var n := Whole(text, k, limit, budget, 0);
            Whole(text, k, limit, budget, n) == n
  {
    hide Fits;
  }

  /** What the next line, or its number alone, costs behind the lines in front. */
  lemma NextCosts(text: string, k: nat, n: nat, budget: int)
    ensures BodyCost(NumberedLines(text, k, n) + [Prefix(k + n + 1)]) == budget - Room(text, k, n, budget)
    ensures BodyCost(NumberedLines(text, k, n) + [Numbered(text, k + n)]) ==
            budget - Room(text, k, n, budget) + EscapedLength(LineText(text, k + n))
  {
    hide Prefix, BodyCost, LineText, EscapedLength, Numbered;
    JoinSnoc(NumberedLines(text, k, n), Prefix(k + n + 1));
    PlainLength(Prefix(k + n + 1));
    BodyGrows(text, k, n, budget);
  }

  // ---------------------------------------------------------------- following the offsets

  lemma {:induction false} EndStays(text: string, k: nat, n: nat)
    requires !HasLine(text, k) && k <= n
    ensures !HasLine(text, n) && Start(text, n) == |text|
    decreases n - k
  {
    if k < n { EndStays(text, k, n - 1); }
  }

  /** A page that shows something and goes on, goes on further down the text, right
      behind what it showed. */
  lemma PageAdvances(text: string, k: nat, limit: nat, budget: int)
    ensures var p := PageAt(text, k, limit, budget);
            && (p.next.Some? <==> !p.eof)
            && (p.next.Some? ==> p.next.value == k + |p.shown| + 1)
            && (p.next.Some? && p.shown != [] ==> Start(text, k) < Start(text, k + |p.shown|))
            && (p.eof ==> !HasLine(text, k + |p.shown|))
  {
    hide Shortened, Room, NumberedLines, Whole, HasLine, Unterminated, Start;
    var n := Whole(text, k, limit, budget, 0);
    assert n > 0 ==> Fits(text, k, n - 1, budget);
    if n > 0 { LineAdvances(text, k, n); }
    LineAdvances(text, k, 1);
  }

  lemma LineAdvances(text: string, k: nat, n: nat)
    requires n > 0
    ensures HasLine(text, k + n - 1) ==> Start(text, k) < Start(text, k + n)
    ensures Unterminated(text, k + n - 1) ==> !HasLine(text, k + n)
  {
    if HasLine(text, k + n - 1) { LinesAreInitial(text, k, k + n - 1); }
  }

  /** The pages a reader sees who follows each offset while it leads on. */
  function Paging(text: string, k: nat, limit: nat, budget: int): (pages: seq<Page>)
    ensures pages != []
    decreases |text| - Start(text, k)
  {
    hide PageAt, Start;
    var p := PageAt(text, k, limit, budget);
    PageAdvances(text, k, limit, budget);
    if p.next.None? || p.shown == [] then [p] else [p] + Paging(text, p.next.value - 1, limit, budget)
  }

  function AllShown(pages: seq<Page>): (r: seq<string>) {
    if pages == [] then [] else pages[0].shown + AllShown(pages[1..])
  }

  /** How line `k` must appear: whole when a page of its own can carry it. */
  function View(text: string, k: nat, budget: int): (s: string)
    requires budget >= |Prefix(k + 1)| + NoticeChars
  {
    if |Prefix(k + 1)| + EscapedLength(LineText(text, k)) <= budget then Numbered(text, k)
    else
      Prefix(k + 1)
      + (Trim(LineText(text, k), budget - |Prefix(k + 1)| - NoticeChars) + TruncatedLineNotice)
  }

  /** The budget has room for a line number and the notice, up to the end of the text. */
  ghost predicate Ample(text: string, k: nat, budget: int) {
    && budget >= |Prefix(k + 1)| + NoticeChars
    && forall j: nat :: k <= j && HasLine(text, j) ==> budget >= |Prefix(j + 2)| + NoticeChars
  }

  /** Every line from `k` on, once, in order. */
  ghost function Views(text: string, k: nat, budget: int): (r: seq<string>)
    requires Ample(text, k, budget)
    decreases |text| - Start(text, k)
  {
    if HasLine(text, k) then
      AmpleFurther(text, k, budget, 1);
      [View(text, k, budget)] + Views(text, k + 1, budget)
    else []
  }

  lemma AmpleFurther(text: string, k: nat, budget: int, n: nat)
    requires Ample(text, k, budget) && (n > 0 ==> HasLine(text, k + n - 1))
    ensures Ample(text, k + n, budget)
  {
  }

  /** The page is stuck, showing nothing and sending the reader back to the same
      offset, exactly when the budget cannot hold the line number and the notice. */
  lemma StuckExactlyWhenTight(text: string, k: nat, limit: nat, budget: int)
    requires limit > 0
    ensures PageAt(text, k, limit, budget) == Page([], false, Some(k + 1), true)
            <==> budget < |Prefix(k + 1)| + NoticeChars
  {
    hide LineText, Prefix, Shortened;
    EmptyBody();
    assert Room(text, k, 0, budget) == budget - |Prefix(k + 1)|;
    if Whole(text, k, limit, budget, 0) > 0 { assert Fits(text, k, 0, budget); }
  }

  /** A page shows the next lines, each as it must appear. */
  lemma PageShowsViews(text: string, k: nat, limit: nat, budget: int)
    requires limit > 0 && Ample(text, k, budget)
    ensures var p := PageAt(text, k, limit, budget);
            && (p.shown != [] ==> HasLine(text, k + |p.shown| - 1))
            && Ample(text, k + |p.shown|, budget)
            && Views(text, k, budget) == p.shown + Views(text, k + |p.shown|, budget)
            && (p.shown == [] ==> p.eof)
  {
    hide LineText, Prefix, Views, Shortened, Ample, Whole, Unterminated, BodyCost, EscapedLength, Start;
    NoLinesYet(text, k);
    var p := PageAt(text, k, limit, budget);
    var n := Whole(text, k, limit, budget, 0);
    assert budget >= |Prefix(k + 1)| + NoticeChars by { AmpleHere(text, k, budget); }
    EmptyBody();
    WholeViews(text, k, limit, budget, n);
    if p.shown == NumberedLines(text, k, n) {
      assert n > 0 ==> Fits(text, k, n - 1, budget);
    } else {
      assert HasLine(text, k) && p.shown == [Shortened(text, k, budget)];
      ShortenedView(text, k, budget);
    }
  }

  lemma AmpleHere(text: string, k: nat, budget: int)
    requires Ample(text, k, budget)
    ensures budget >= |Prefix(k + 1)| + NoticeChars
  {
  }

  lemma ShortenedView(text: string, k: nat, budget: int)
    requires Ample(text, k, budget) && HasLine(text, k)
    requires Room(text, k, 0, budget) >= NoticeChars && !Fits(text, k, 0, budget)
    ensures Ample(text, k + 1, budget)
    ensures Views(text, k, budget) == [Shortened(text, k, budget)] + Views(text, k + 1, budget)
  {
    hide LineText, Prefix, Trim, Ample, BodyCost, EscapedLength, Start;
    AmpleFurther(text, k, budget, 1);
    AmpleHere(text, k, budget);
    EmptyBody();
    var head := [View(text, k, budget)];
    assert Views(text, k, budget) == head + Views(text, k + 1, budget);
  }

  lemma {:induction false} WholeViews(text: string, k: nat, limit: nat, budget: int, n: nat)
    requires Ample(text, k, budget) && forall j :: 0 <= j < n ==> Fits(text, k, j, budget)
    ensures Ample(text, k + n, budget)
    ensures Views(text, k, budget) == NumberedLines(text, k, n) + Views(text, k + n, budget)
  {
    hide Ample, Views, Fits, NumberedLines;
    if n > 0 {
      WholeViews(text, k, limit, budget, n - 1);
      WholeView(text, k, n - 1, budget);
    } else {
      NoLinesYet(text, k);
    }
  }

  lemma NoLinesYet(text: string, k: nat)
    ensures NumberedLines(text, k, 0) == []
  {
  }

  lemma WholeView(text: string, k: nat, n: nat, budget: int)
    requires Ample(text, k + n, budget) && Fits(text, k, n, budget)
    ensures Ample(text, k + n + 1, budget)
    ensures Views(text, k + n, budget) == [Numbered(text, k + n)] + Views(text, k + n + 1, budget)
    ensures NumberedLines(text, k, n + 1) == NumberedLines(text, k, n) + [Numbered(text, k + n)]
  {
    hide LineText, Prefix, Trim, BodyCost;
    AmpleFurther(text, k + n, budget, 1);
    AmpleHere(text, k + n, budget);
  }

  /** Following the offsets ends at the end of the text and shows every line exactly
      once, in order, whole whenever a page of its own can carry it; every page is
      within the budget. */
  lemma {:induction false} PagingShowsEveryLine(text: string, k: nat, limit: nat, budget: nat)
    requires limit > 0 && Ample(text, k, budget)
    ensures AllShown(Paging(text, k, limit, budget)) == Views(text, k, budget)
    ensures Last(Paging(text, k, limit, budget)).eof
    ensures forall i :: 0 <= i < |Paging(text, k, limit, budget)| ==>
              BodyCost(Paging(text, k, limit, budget)[i].shown) <= budget
    decreases |text| - Start(text, k)
  {
    hide BodyCost, Views, PageAt, Ample, Start, HasLine, AllShown;
    var p := PageAt(text, k, limit, budget);
    var pages := Paging(text, k, limit, budget);
    PageShowsViews(text, k, limit, budget);
    PageAdvances(text, k, limit, budget);
    PageWithinBudget(text, k, limit, budget);
    if p.next.Some? && p.shown != [] {
      var further := Paging(text, k + |p.shown|, limit, budget);
      assert pages == [p] + further;
      hide Paging;
      PagingShowsEveryLine(text, k + |p.shown|, limit, budget);
      MoreShown(p, further);
    } else {
      assert pages == [p] + [];
      MoreShown(p, []);
      NoViews(text, k + |p.shown|, budget);
    }
  }

  lemma MoreShown(p: Page, further: seq<Page>)
    ensures AllShown([p] + further) == p.shown + AllShown(further)
    ensures Last([p] + further) == if further == [] then p else Last(further)
    ensures further == [] ==> AllShown(further) == []
  {
    assert ([p] + further)[1..] == further;
  }

  lemma NoViews(text: string, k: nat, budget: int)
    requires Ample(text, k, budget) && !HasLine(text, k)
    ensures Views(text, k, budget) == []
  {
  }

  /** An artifact is read back whole: no page of it ever shortens a line, when the
      budget can hold a line of the worst characters and the number of any line. */
  lemma ArtifactReadsBack(source: string, limit: nat, budget: nat)
    requires limit > 0
    requires budget >= |Prefix(|Wrap(source, 0)| + 1)| + 6 * MaxArtifactLineChars
    ensures var text := Wrap(source, 0);
            && Ample(text, 0, budget)
            && AllShown(Paging(text, 0, limit, budget)) == AllNumbered(text, 0)
            && Last(Paging(text, 0, limit, budget)).eof
  {
    var text := Wrap(source, 0);
    hide Wrap, Prefix, Bounded;
    PrefixGrows(1, |text| + 1);
    forall k: nat | HasLine(text, k)
      ensures |Prefix(k + 1)| <= |Prefix(|text| + 1)| && |Prefix(k + 2)| <= |Prefix(|text| + 1)|
    {
      LineNumberBound(text, k);
      PrefixGrows(k + 1, |text| + 1);
      PrefixGrows(k + 2, |text| + 1);
    }
    WrapBounds(source, 0);
    PagingShowsEveryLine(text, 0, limit, budget);
    hide Paging, AllShown, Views, AllNumbered;
    ViewsWhole(text, 0, budget);
  }

  lemma PrefixGrows(m: nat, n: nat)
    requires m <= n
    ensures |Prefix(m)| <= |Prefix(n)|
  {
    DecimalGrows(m, n);
  }

  /** Every line takes at least one character. */
  lemma {:induction false} LineNumberBound(text: string, k: nat)
    requires HasLine(text, k)
    ensures k <= Start(text, k) < |text|
  {
    if k > 0 {
      LinesAreInitial(text, k - 1, k);
      LineNumberBound(text, k - 1);
    }
  }

  /** Every line of the text from `k` on, with its number. */
  function AllNumbered(text: string, k: nat): (r: seq<string>)
    decreases |text| - Start(text, k)
  {
    if HasLine(text, k) then [Numbered(text, k)] + AllNumbered(text, k + 1) else []
  }

  lemma {:induction false} ViewsWhole(text: string, k: nat, budget: int)
    requires Ample(text, k, budget) && Bounded(text, 0)
    requires forall j: nat :: HasLine(text, j) ==> budget >= |Prefix(j + 1)| + 6 * MaxArtifactLineChars
    ensures Views(text, k, budget) == AllNumbered(text, k)
    decreases |text| - Start(text, k)
  {
    if HasLine(text, k) {
      hide Bounded, Prefix, LineText, Trim;
      BoundedLine(text, k);
      EscapedBounds(LineText(text, k));
      AmpleFurther(text, k, budget, 1);
      AmpleHere(text, k, budget);
      ViewsWhole(text, k + 1, budget);
    }
  }

  // ---------------------------------------------------------------- the pager

  /** Takes one line and discards what is beyond `maxChars` of it. */
  method ReadLineBounded(file: TextFile, maxChars: nat) returns (line: Option<string>, truncated: bool, ended: bool)
    requires file.pos <= |file.text|
    modifies file
    ensures file.pos == NextLine(file.text, old(file.pos))
    ensures old(file.pos) == |file.text| ==> line == None && !truncated && ended
    ensures old(file.pos) < |file.text| ==>
              var whole := file.text[old(file.pos)..LineEnd(file.text, old(file.pos))];
              && truncated == (|whole| > maxChars)
              && line == Some(if truncated then whole[..maxChars] else whole)
              && ended == (LineEnd(file.text, old(file.pos)) == |file.text|)
  {
    hide LineEnd, ReadTo;
    var chunk := file.ReadLine(maxChars + 1);
    if chunk == [] { return None, false, true; }
    if Last(chunk) == '\n' {
      LineTaken(file.text, old(file.pos), file.pos);
      return Some(chunk[..|chunk| - 1]), false, false;
    }
    if |chunk| <= maxChars { return Some(chunk), false, true; }
    line, truncated, ended := Some(chunk[..maxChars]), true, true;
    ghost var start := old(file.pos);
    LineEndWithin(file.text, start, file.pos);
    TakeOfSlices(file.text, start, file.pos, LineEnd(file.text, start), maxChars);
    while true
      invariant start < file.pos <= LineEnd(file.text, start) == LineEnd(file.text, file.pos)
      invariant line == Some(chunk[..maxChars]) && truncated
      decreases |file.text| - file.pos
    {
      var remainder := file.ReadLine(DiscardChunkChars);
      if remainder == [] { return line, true, true; }
      if Last(remainder) == '\n' {
        assert file.text[file.pos - 1] == '\n';
        return line, true, false;
      }
      LineEndWithin(file.text, start, file.pos);
    }
  }

  lemma LineTaken(text: string, i: nat, j: nat)
    requires i < j <= |text| && j <= NextLine(text, i) && Last(text[i..j]) == '\n'
    ensures LineEnd(text, i) == j - 1 && text[i..j][..j - i - 1] == text[i..j - 1]
  {
    assert text[j - 1] == '\n';
  }

  lemma TakeOfSlices<T>(s: seq<T>, i: nat, j: nat, k: nat, n: nat)
    requires i + n <= j <= |s| && i + n <= k <= |s|
    ensures s[i..j][..n] == s[i..k][..n]
  {
  }

  lemma {:induction false} LineEndWithin(text: string, i: nat, j: nat)
    requires i <= |text| && i <= j <= LineEnd(text, i)
    ensures LineEnd(text, j) == LineEnd(text, i)
    decreases j - i
  {
    if i < j { LineEndWithin(text, i + 1, j); }
  }

  method SkipLines(file: TextFile, count: nat) returns (skipped: nat)
    requires file.pos == 0
    modifies file
    ensures skipped <= count && file.pos == Start(file.text, skipped)
    ensures skipped < count ==> !HasLine(file.text, skipped)
    ensures skipped > 0 ==> HasLine(file.text, skipped - 1)
  {
    skipped := 0;
    while skipped < count
      invariant skipped <= count && file.pos == Start(file.text, skipped)
      invariant skipped > 0 ==> HasLine(file.text, skipped - 1)
    {
      var line, _, _ := ReadLineBounded(file, 0);
      if line.None? { return; }
      skipped := skipped + 1;
    }
  }

  /** What the pager answers: past the end, the number of lines there are. */
  datatype Answer = PastEnd(lines: nat) | Shows(page: Page)

  /** What reading a range from line `offset` on must answer. */
  ghost predicate Answers(text: string, offset: nat, limit: nat, budget: int, answer: Answer)
    requires offset >= 1
  {
    && (answer.PastEnd? <==> offset > 1 && !HasLine(text, offset - 2))
    && (answer.PastEnd? ==> answer.lines < offset - 1 && !HasLine(text, answer.lines)
                            && (answer.lines > 0 ==> HasLine(text, answer.lines - 1)))
    && (answer.Shows? ==> answer.page == PageAt(text, offset - 1, limit, budget))
  }

  /** The whole lines a page can take have been counted. */
  lemma Counted(text: string, k: nat, limit: nat, budget: int, n: nat)
    requires n <= limit && Whole(text, k, limit, budget, 0) == Whole(text, k, limit, budget, n)
    requires n == limit || !Fits(text, k, n, budget)
    ensures PageAt(text, k, limit, budget) == Ending(text, k, limit, budget, n)
  {
    hide Ending, Fits;
  }

  /** A line that fits alone is read whole; one that does not is cut to the same text
      whether or not it was read whole. */
  lemma CutLine(line: string, available: nat, maxChars: nat)
    requires available <= maxChars && available >= NoticeChars
    ensures EscapedLength(line) <= available ==> |line| <= maxChars
    ensures |line| > maxChars ==>
              EscapedLength(line[..maxChars]) > available - NoticeChars
              && Trim(line[..maxChars], available - NoticeChars) == Trim(line, available - NoticeChars)
  {
    EscapedBounds(line);
    if |line| > maxChars {
      EscapedBounds(line[..maxChars]);
      assert line[..0] == [];
      FittingOfCut(line, maxChars, available - NoticeChars, 0);
    }
  }

  method ReadTextRange(file: TextFile, offset: nat, limit: nat, budget: int) returns (answer: Answer)
    requires file.pos == 0 && offset >= 1
    modifies file
    ensures Answers(file.text, offset, limit, budget, answer)
  {
    var skipped := SkipLines(file, offset - 1);
    if skipped < offset - 1 {
      EndStays(file.text, skipped, offset - 2);
      return PastEnd(skipped);
    }
    var page := ReadPage(file, offset, limit, budget);
    return Shows(page);
  }

  method ReadPage(file: TextFile, offset: nat, limit: nat, budget: int) returns (page: Page)
    requires offset >= 1 && file.pos == Start(file.text, offset - 1)
    modifies file
    ensures page == PageAt(file.text, offset - 1, limit, budget)
  {
    hide Prefix, LineText, Ending, Whole, PageAt, Start, NumberedLines, BodyCost, Trim, Unterminated, EscapedLength,
         Fits, Shortened, HasLine, Numbered;
    ghost var text, k := file.text, (offset - 1) as nat;
    var rendered, used, number := [], 0, offset;
    var eof, limited, next := false, false, None;
    EmptyBody();
    NoLinesYet(text, k);
    while |rendered| < limit
      invariant |rendered| <= limit && number == k + |rendered| + 1 && file.pos == Start(text, k + |rendered|)
      invariant rendered == NumberedLines(text, k, |rendered|) && used == BodyCost(rendered)
      invariant Whole(text, k, limit, budget, 0) == Whole(text, k, limit, budget, |rendered|)
      invariant |rendered| > 0 ==> !Unterminated(text, k + |rendered| - 1)
      invariant !eof && !limited && next == None
      decreases limit - |rendered|
    {
      ghost var n := |rendered|;
      var prefix := Prefix(number);
      var separator := if rendered != [] then 2 else 0;
      var available := budget - used - separator - |prefix|;
      assert available == Room(text, k, n, budget);
      if available < NoticeChars {
        limited, next := true, Some(number);
        assert Page(rendered, eof, next, limited) == PageAt(text, k, limit, budget) by {
          Tight(text, k, limit, budget, n);
        }
        break;
      }
      var lineStart := file.pos;
      var read, truncated, ended := ReadNextLine(file, k + n, budget - |prefix|);
      if read.None? {
        eof := true;
        assert Page(rendered, eof, next, limited) == PageAt(text, k, limit, budget) by {
          NoMore(text, k, limit, budget, n);
        }
        break;
      }
      var line := read.value;
      LineRead(text, k, n, budget, line, truncated);
      var cost := EscapedLength(line);
      if (truncated || cost > available) && rendered != [] {
        file.pos := lineStart;
        limited, next := true, Some(number);
        assert Page(rendered, eof, next, limited) == PageAt(text, k, limit, budget) by {
          NoFit(text, k, limit, budget, n);
        }
        break;
      }
      if truncated || cost > available {
        var kept := TrimToEscaped(line, available - NoticeChars);
        line := kept + TruncatedLineNotice;
        cost := EscapedLength(line);
        truncated, limited := true, true;
      }
      rendered := rendered + [prefix + line];
      used := used + separator + |prefix| + cost;
      number := number + 1;
      if limited {
        if ended { eof := true; } else { next := Some(number); }
        assert Page(rendered, eof, next, limited) == PageAt(text, k, limit, budget) by {
          NoFit(text, k, limit, budget, n);
        }
        break;
      }
      Taken(text, k, limit, budget, n);
      if ended {
        eof := true;
        assert Page(rendered, eof, next, limited) == PageAt(text, k, limit, budget) by {
          LastLine(text, k, limit, budget, n + 1);
        }
        break;
      }
    }
    if !eof && next.None? {
      var lookahead, _, _ := ReadNextLine(file, k + limit, 0);
      if lookahead.None? { eof := true; } else { next := Some(number); }
      Full(text, k, limit, budget);
    }
    page := Page(rendered, eof, next, limited);
  }

  /** Reads line `k` of the text, where the file stands. */
  method ReadNextLine(file: TextFile, ghost k: nat, maxChars: nat)
    returns (line: Option<string>, truncated: bool, ended: bool)
    requires file.pos == Start(file.text, k)
    modifies file
    ensures file.pos == Start(file.text, k + 1)
    ensures line.Some? <==> HasLine(file.text, k)
    ensures line.Some? ==>
              var whole := LineText(file.text, k);
              && truncated == (|whole| > maxChars)
              && line.value == (if truncated then whole[..maxChars] else whole)
              && ended == Unterminated(file.text, k)
  {
    LineHere(file.text, k);
    hide LineText, Unterminated;
    line, truncated, ended := ReadLineBounded(file, maxChars);
  }

  /** Where the file stands, line `k` is what there is to read. */
  lemma LineHere(text: string, k: nat)
    ensures LineText(text, k) == text[Start(text, k)..LineEnd(text, Start(text, k))]
    ensures Unterminated(text, k) <==> LineEnd(text, Start(text, k)) == |text|
    ensures Start(text, k + 1) == NextLine(text, Start(text, k))
  {
  }

  /** The line read, which may be cut, decides like the whole line whether it fits,
      and is shortened alike. */
  lemma LineRead(text: string, k: nat, n: nat, budget: int, line: string, truncated: bool)
    requires HasLine(text, k + n) && Room(text, k, n, budget) >= NoticeChars
    requires var whole, most := LineText(text, k + n), budget - |Prefix(k + n + 1)|;
             truncated == (|whole| > most) && line == if truncated then whole[..most] else whole
    ensures truncated || EscapedLength(line) > Room(text, k, n, budget) <==> !Fits(text, k, n, budget)
    ensures !truncated ==> line == LineText(text, k + n)
    ensures n == 0 ==>
              Prefix(k + 1) + (Trim(line, Room(text, k, n, budget) - NoticeChars) + TruncatedLineNotice)
                == Shortened(text, k, budget)
  {
    hide LineText, Prefix, Trim, EscapedLength, BodyCost;
    CutLine(LineText(text, k + n), Room(text, k, n, budget), budget - |Prefix(k + n + 1)|);
  }

  lemma Tight(text: string, k: nat, limit: nat, budget: int, n: nat)
    requires n < limit && Whole(text, k, limit, budget, 0) == Whole(text, k, limit, budget, n)
    requires Room(text, k, n, budget) < NoticeChars && (n > 0 ==> !Unterminated(text, k + n - 1))
    ensures PageAt(text, k, limit, budget) == Page(NumberedLines(text, k, n), false, Some(k + n + 1), true)
  {
    hide Room, Unterminated, NumberedLines;
    Counted(text, k, limit, budget, n);
  }

  lemma NoMore(text: string, k: nat, limit: nat, budget: int, n: nat)
    requires n < limit && Whole(text, k, limit, budget, 0) == Whole(text, k, limit, budget, n)
    requires Room(text, k, n, budget) >= NoticeChars && (n > 0 ==> !Unterminated(text, k + n - 1))
             && !HasLine(text, k + n)
    ensures PageAt(text, k, limit, budget) == Page(NumberedLines(text, k, n), true, None, false)
  {
    hide Room, Unterminated, NumberedLines;
    Counted(text, k, limit, budget, n);
  }

  lemma NoFit(text: string, k: nat, limit: nat, budget: int, n: nat)
    requires n < limit && Whole(text, k, limit, budget, 0) == Whole(text, k, limit, budget, n)
    requires Room(text, k, n, budget) >= NoticeChars && (n > 0 ==> !Unterminated(text, k + n - 1))
    requires HasLine(text, k + n) && !Fits(text, k, n, budget)
    ensures PageAt(text, k, limit, budget) ==
            if n > 0 then Page(NumberedLines(text, k, n), false, Some(k + n + 1), true)
            else if Unterminated(text, k) then Page([Shortened(text, k, budget)], true, None, true)
            else Page([Shortened(text, k, budget)], false, Some(k + 2), true)
  {
    hide Room, Unterminated, NumberedLines, Shortened;
    Counted(text, k, limit, budget, n);
  }

  lemma LastLine(text: string, k: nat, limit: nat, budget: int, n: nat)
    requires 0 < n <= limit && Whole(text, k, limit, budget, 0) == Whole(text, k, limit, budget, n)
    requires Unterminated(text, k + n - 1)
    ensures PageAt(text, k, limit, budget) == Page(NumberedLines(text, k, n), true, None, false)
  {
    hide Room, NumberedLines, Shortened, Whole, PageAt, LineText;
    assert !HasLine(text, k + n);
    Counted(text, k, limit, budget, n);
  }

  lemma Full(text: string, k: nat, limit: nat, budget: int)
    requires Whole(text, k, limit, budget, 0) == Whole(text, k, limit, budget, limit)
    requires limit > 0 ==> !Unterminated(text, k + limit - 1)
    ensures PageAt(text, k, limit, budget) ==
            if HasLine(text, k + limit) then Page(NumberedLines(text, k, limit), false, Some(k + limit + 1), false)
            else Page(NumberedLines(text, k, limit), true, None, false)
  {
    hide Room, Unterminated, NumberedLines, Shortened;
    Counted(text, k, limit, budget, limit);
  }

  /** One more whole line has been taken. */
  lemma Taken(text: string, k: nat, limit: nat, budget: int, n: nat)
    requires n < limit && Fits(text, k, n, budget)
    ensures Whole(text, k, limit, budget, n) == Whole(text, k, limit, budget, n + 1)
    ensures NumberedLines(text, k, n + 1) == NumberedLines(text, k, n) + [Numbered(text, k + n)]
    ensures Numbered(text, k + n) == Prefix(k + n + 1) + LineText(text, k + n)
    ensures BodyCost(NumberedLines(text, k, n + 1)) ==
            budget - Room(text, k, n, budget) + EscapedLength(LineText(text, k + n))
  {
    hide Fits, LineText, BodyCost, Prefix;
    BodyGrows(text, k, n, budget);
  }

  // ---------------------------------------------------------------- the whole answer

  const StatusReserveChars: nat := 256
  const MaxFileSizeBytes: nat := 50 * 1024 * 1024

  /** What an envelope leaves for the lines of a page; negative when it is too large. */
  function PageBudget(envelope: nat): (budget: int) {
    MaxToolResultChars - envelope - StatusReserveChars
  }

  function LimitNote(page: Page): (s: string) {
    if page.limited then ". character limit reached" else ""
  }

  function Extent(offset: nat, end: nat): (s: string) {
    if end < offset then "No complete lines shown"
    else if offset == end then "Showing line " + Decimal(end)
    else "Showing lines " + Decimal(offset) + ("-" + Decimal(end))
  }

  function Onward(page: Page): (s: string) {
    if page.next.Some? then ". Use offset=" + Decimal(page.next.value) + " to continue" else ""
  }

  /** What the answer says behind the lines of a page that starts with line `offset`. */
  function Status(offset: nat, page: Page): (s: string)
    requires offset >= 1
  {
    var end := offset - 1 + |page.shown|;
    if page.eof then "(End of file — " + Decimal(end) + (" lines total" + LimitNote(page) + ")")
    else "(" + Extent(offset, end) + (LimitNote(page) + Onward(page) + ".)")
  }

  function Content(offset: nat, answer: Answer): (s: string)
    requires offset >= 1
  {
    match answer
    case PastEnd(lines) => "(End of file — " + Decimal(lines) + " lines total)"
    case Shows(page) =>
      if page.shown == [] then Status(offset, page) else Join(page.shown) + "\n\n" + Status(offset, page)
  }

  /** At most `n` characters, none of which needs an escape. */
  predicate Short(s: string, n: nat) {
    |s| <= n && forall i :: 0 <= i < |s| ==> s[i] >= ' ' && s[i] !in {'\"', '\\'}
  }

  lemma ShortConcat(a: string, m: nat, b: string, n: nat)
    requires Short(a, m) && Short(b, n)
    ensures Short(a + b, m + n)
  {
  }

  lemma ExtentShort(offset: nat, end: nat, digits: nat)
    requires |Decimal(offset)| <= digits && |Decimal(end)| <= digits
    ensures Short(Extent(offset, end), 24 + 2 * digits)
  {
    DecimalShort(offset, digits);
    DecimalShort(end, digits);
    hide Decimal;
    SomeLinesShort(Decimal(offset), Decimal(end), digits);
    OneLineShort(Decimal(end), digits);
    assert Short("No complete lines shown", 24 + 2 * digits);
    hide Short;
  }

  lemma DecimalShort(n: nat, digits: nat)
    requires |Decimal(n)| <= digits
    ensures Short(Decimal(n), digits)
  {
  }

  lemma OneLineShort(a: string, digits: nat)
    requires Short(a, digits)
    ensures Short("Showing line " + a, 24 + 2 * digits)
  {
    assert Short("Showing line ", 13);
    hide Short;
    ShortConcat("Showing line ", 13, a, digits);
    Shorter("Showing line " + a, 13 + digits, 24 + 2 * digits);
  }

  lemma SomeLinesShort(a: string, b: string, digits: nat)
    requires Short(a, digits) && Short(b, digits)
    ensures Short("Showing lines " + a + ("-" + b), 24 + 2 * digits)
  {
    assert Short("Showing lines ", 14) && Short("-", 1);
    hide Short;
    ShortConcat("Showing lines ", 14, a, digits);
    ShortConcat("-", 1, b, digits);
    ShortConcat("Showing lines " + a, 14 + digits, "-" + b, 1 + digits);
    Shorter("Showing lines " + a + ("-" + b), 15 + 2 * digits, 24 + 2 * digits);
  }

  lemma OnwardShort(page: Page, digits: nat)
    requires page.next.Some? ==> |Decimal(page.next.value)| <= digits
    ensures Short(Onward(page), 25 + digits)
  {
    if page.next.Some? {
      var d := Decimal(page.next.value);
      assert Short(d, digits) && Short(". Use offset=", 13) && Short(" to continue", 12);
      hide Decimal;
      ShortConcat(". Use offset=", 13, d, digits);
      ShortConcat(". Use offset=" + d, 13 + digits, " to continue", 12);
    }
  }

  lemma EndShort(end: string, note: string, digits: nat)
    requires Short(end, digits) && Short(note, 25)
    ensures Short("(End of file — " + end + (" lines total" + note + ")"), 53 + digits)
  {
    assert Short("(End of file — ", 15) && Short(" lines total", 12) && Short(")", 1);
    hide Short;
    ShortConcat("(End of file — ", 15, end, digits);
    ShortConcat(" lines total", 12, note, 25);
    ShortConcat(" lines total" + note, 37, ")", 1);
    ShortConcat("(End of file — " + end, 15 + digits, " lines total" + note + ")", 38);
  }

  lemma GoingShort(extent: string, note: string, onward: string, digits: nat)
    requires Short(extent, 24 + 2 * digits) && Short(note, 25) && Short(onward, 25 + digits)
    ensures Short("(" + extent + (note + onward + ".)"), 77 + 3 * digits)
  {
    assert Short("(", 1) && Short(".)", 2);
    hide Short;
    ShortConcat("(", 1, extent, 24 + 2 * digits);
    ShortConcat(note, 25, onward, 25 + digits);
    ShortConcat(note + onward, 50 + digits, ".)", 2);
    ShortConcat("(" + extent, 25 + 2 * digits, note + onward + ".)", 52 + digits);
  }

  lemma StatusShort(offset: nat, page: Page, digits: nat)
    requires offset >= 1 && |Decimal(offset)| <= digits && |Decimal(offset - 1 + |page.shown|)| <= digits
    requires page.next.Some? ==> |Decimal(page.next.value)| <= digits
    ensures Short(Status(offset, page), 77 + 3 * digits)
  {
    var end, note := offset - 1 + |page.shown|, LimitNote(page);
    assert Short(note, 25) && Short(Decimal(end), digits);
    hide Decimal, LimitNote, Extent, Onward, Short;
    if page.eof {
      EndShort(Decimal(end), note, digits);
      Shorter(Status(offset, page), 53 + digits, 77 + 3 * digits);
    } else {
      ExtentShort(offset, end, digits);
      OnwardShort(page, digits);
      GoingShort(Extent(offset, end), note, Onward(page), digits);
    }
  }

  lemma Shorter(s: string, m: nat, n: nat)
    requires Short(s, m) && m <= n
    ensures Short(s, n)
  {
  }

  lemma BlankLineCost()
    ensures EscapedLength("\n\n") == 4
  {
    assert "\n\n"[..1] == "\n" && "\n"[..0] == "";
  }

  lemma ContentCost(offset: nat, page: Page, digits: nat)
    requires offset >= 1 && |Decimal(offset)| <= digits && |Decimal(offset - 1 + |page.shown|)| <= digits
    requires page.next.Some? ==> |Decimal(page.next.value)| <= digits
    ensures EscapedLength(Content(offset, Shows(page))) <= BodyCost(page.shown) + 81 + 3 * digits
  {
    var status := Status(offset, page);
    StatusShort(offset, page, digits);
    PlainLength(status);
    EmptyBody();
    hide Status, Join, EscapedLength;
    if page.shown != [] {
      EscapedConcat(Join(page.shown) + "\n\n", status);
      EscapedConcat(Join(page.shown), "\n\n");
      BlankLineCost();
    }
  }

  /** Numbers below a hundred million have at most eight digits. */
  lemma EightDigits(n: nat)
    requires n < 100_000_000
    ensures |Decimal(n)| <= 8
  {
    DecimalGrows(n, 99_999_999);
    assert |Decimal(9)| == 1;
    hide Decimal;
    OneDigitMore(99);
    OneDigitMore(999);
    OneDigitMore(9_999);
    OneDigitMore(99_999);
    OneDigitMore(999_999);
    OneDigitMore(9_999_999);
    OneDigitMore(99_999_999);
  }

  lemma OneDigitMore(n: nat)
    requires n >= 10
    ensures |Decimal(n)| == |Decimal(n / 10)| + 1
  {
  }

  /** The last line a page shows is a line of the text. */
  lemma PageEndsInText(text: string, k: nat, limit: nat, budget: int)
    ensures var p := PageAt(text, k, limit, budget);
            p.shown != [] ==> HasLine(text, k + |p.shown| - 1) && k + |p.shown| <= |text|
  {
    hide LineText, Prefix, Shortened, Unterminated, Room, NumberedLines, HasLine;
    var p, n := PageAt(text, k, limit, budget), Whole(text, k, limit, budget, 0);
    assert n > 0 ==> Fits(text, k, n - 1, budget);
    hide Whole;
    if p.shown != [] { LineNumberBound(text, k + |p.shown| - 1); }
  }

  /** Line numbers of a file that may be read have at most eight digits. */
  lemma NumbersShort(text: string, offset: nat, shown: nat)
    requires |text| <= MaxFileSizeBytes && 1 <= offset <= |text| + 1 && (shown > 0 ==> offset - 1 + shown <= |text|)
    ensures |Decimal(offset)| <= 8 && |Decimal(offset - 1 + shown)| <= 8 && |Decimal(offset + shown)| <= 8
  {
    hide Decimal;
    EightDigits(offset);
    EightDigits(offset - 1 + shown);
    EightDigits(offset + shown);
  }

  /** Whatever page of a file is asked for, the whole answer stays within the size that
      every tool result shares. */
  lemma AnswerFits(text: string, offset: nat, limit: nat, envelope: nat)
    requires offset >= 1 && (offset > 1 ==> HasLine(text, offset - 2))
    requires |text| <= MaxFileSizeBytes && envelope + StatusReserveChars <= MaxToolResultChars
    ensures var page := PageAt(text, offset - 1, limit, PageBudget(envelope));
            envelope + EscapedLength(Content(offset, Shows(page))) <= MaxToolResultChars
  {
    hide PageAt, Content, EscapedLength, HasLine, Start;
    var budget: nat := PageBudget(envelope);
    if offset > 1 { LineNumberBound(text, offset - 2); }
    PageCost(text, offset, limit, budget);
  }

  lemma PageCost(text: string, offset: nat, limit: nat, budget: nat)
    requires 1 <= offset <= |text| + 1 && |text| <= MaxFileSizeBytes
    ensures EscapedLength(Content(offset, Shows(PageAt(text, offset - 1, limit, budget))))
            <= budget + StatusReserveChars
  {
    hide PageAt, Content, EscapedLength, BodyCost, Decimal, HasLine, Start;
    var page := PageAt(text, offset - 1, limit, budget);
    PageEndsInText(text, offset - 1, limit, budget);
    PageAdvances(text, offset - 1, limit, budget);
    PageWithinBudget(text, offset - 1, limit, budget);
    NumbersShort(text, offset, |page.shown|);
    ContentCost(offset, page, 8);
  }

  lemma PastEndFits(text: string, offset: nat, lines: nat)
    requires offset >= 1 && |text| <= MaxFileSizeBytes && (lines > 0 ==> HasLine(text, lines - 1))
    ensures EscapedLength(Content(offset, PastEnd(lines))) <= StatusReserveChars
  {
    if lines > 0 { LineNumberBound(text, lines - 1); }
    EightDigits(lines);
    var s := Content(offset, PastEnd(lines));
    assert Short(s, 36) by {
      assert Short(Decimal(lines), 8) && Short("(End of file — ", 15) && Short(" lines total)", 13);
      ShortConcat("(End of file — ", 15, Decimal(lines), 8);
      ShortConcat("(End of file — " + Decimal(lines), 23, " lines total)", 13);
    }
    PlainLength(s);
  }

  /** An artifact with the real sizes: an envelope of 7936 characters less the longest line
      prefix still leaves room for every line of it, whole, and every page that can be asked
      for stays within the size of a tool result. */
  lemma ArtifactStaysInline(source: string, limit: nat, envelope: nat)
    requires limit > 0 && |Wrap(source, 0)| <= MaxFileSizeBytes
    requires envelope + |Prefix(|Wrap(source, 0)| + 1)| <= 7936
    ensures var text, budget := Wrap(source, 0), PageBudget(envelope);
            && AllShown(Paging(text, 0, limit, budget)) == AllNumbered(text, 0)
            && Last(Paging(text, 0, limit, budget)).eof
            && InlinePages(text, limit, envelope)
  {
    hide Wrap, Prefix, Paging, AllShown, AllNumbered, InlinePages;
    ArtifactReadsBack(source, limit, PageBudget(envelope));
    PagesInline(Wrap(source, 0), limit, envelope);
  }

  predicate PageStarts(text: string, k: nat) {
    k == 0 || HasLine(text, k - 1)
  }

  /** Every page that starts with a line of the text, or right behind the last one, is
      answered within the size of a tool result. */
  ghost predicate InlinePages(text: string, limit: nat, envelope: nat) {
    forall k: nat :: PageStarts(text, k) ==>
      var page := PageAt(text, k, limit, PageBudget(envelope));
      envelope + EscapedLength(Content(k + 1, Shows(page)))
      <= MaxToolResultChars
  }

  lemma PagesInline(text: string, limit: nat, envelope: nat)
    requires |text| <= MaxFileSizeBytes && envelope + StatusReserveChars <= MaxToolResultChars
    ensures InlinePages(text, limit, envelope)
  {
    hide PageAt, Content, EscapedLength, HasLine, Start;
    var budget := PageBudget(envelope);
    forall k: nat | PageStarts(text, k)
      ensures envelope + EscapedLength(Content(k + 1, Shows(PageAt(text, k, limit, budget)))) <= MaxToolResultChars
    {
      AnswerFits(text, k + 1, limit, envelope);
    }
  }

  /** The content does not push the result over the size that every tool result shares,
      unless the envelope alone leaves no room for a status. */
  predicate Inline(envelope: nat, content: string) {
    envelope + StatusReserveChars <= MaxToolResultChars ==> envelope + EscapedLength(content) <= MaxToolResultChars
  }

  lemma AnswerInline(text: string, offset: nat, limit: nat, envelope: nat, answer: Answer)
    requires offset >= 1 && |text| <= MaxFileSizeBytes
    requires Answers(text, offset, limit, PageBudget(envelope), answer)
    ensures Inline(envelope, Content(offset, answer))
  {
    hide PageAt, Content, EscapedLength, HasLine, Start;
    if answer.PastEnd? {
      PastEndFits(text, offset, answer.lines);
    } else if envelope + StatusReserveChars <= MaxToolResultChars {
      AnswerFits(text, offset, limit, envelope);
    }
  }

  /** One file read. `size` is the size of the file in bytes, `envelope` that of the result
      around an empty text. */
  method ReadTextFile(file: TextFile, size: nat, envelope: nat, offset: nat, limit: nat)
    returns (content: Result<string>, answer: Answer)
    requires file.pos == 0 && offset >= 1 && |file.text| <= size
    modifies file
    ensures content.Err? <==> size > MaxFileSizeBytes
    ensures content.Ok? ==>
              && content.value == Content(offset, answer)
              && Answers(file.text, offset, limit, PageBudget(envelope), answer)
              && Inline(envelope, content.value)
  {
    hide Content, Inline, Answers, HasLine, PageAt, EscapedLength, PageBudget;
    answer := PastEnd(0);
    if size > MaxFileSizeBytes {
      return Err, answer;
    }
    answer := ReadTextRange(file, offset, limit, PageBudget(envelope));
    AnswerInline(file.text, offset, limit, envelope, answer);
    content := Ok(Content(offset, answer));
  }
}
