/** Previews of a command's output: the reader that keeps both ends of a stream of any
    length, and the loop that cuts them to a budget which must also hold the notice of
    how much was cut. */
module Preview {
  import opened Common

  const ReadChunkChars: nat := 8192

  /** Both ends of a stream and its length. */
  datatype Excerpt = Excerpt(head: string, tail: string, size: nat)

  function Min(a: nat, b: nat): (r: nat) {
    if a <= b then a else b
  }

  /** What an excerpt of `text` must be. */
  function ExcerptOf(text: string, limit: nat): (e: Excerpt) {
    var n := Min(limit, |text|);
    Excerpt(text[..n], text[|text| - n..], |text|)
  }

  /** The last `limit` characters, as a bounded deque keeps them. */
  function Bounded(s: string, limit: nat): (r: string) {
    if |s| <= limit then s else s[|s| - limit..]
  }

  lemma NothingRead(limit: nat)
    ensures Bounded([], limit) == []
  {
  }

  lemma AllRead(text: string, limit: nat)
    ensures Bounded(text, limit) == text[|text| - Min(limit, |text|)..]
  {
  }

  /** Keeping the end of what was kept of the end keeps the end. */
  lemma ChunkRead(text: string, limit: nat, pos: nat, next: nat)
    requires pos <= next <= |text|
    ensures Bounded(Bounded(text[..pos], limit) + text[pos..next], limit) == Bounded(text[..next], limit)
    ensures var remaining := limit - Min(limit, pos);
            text[..Min(limit, next)] ==
            text[..Min(limit, pos)] + if remaining > 0 then text[pos..next][..Min(remaining, next - pos)] else []
  {
    TailRead(text[..pos], text[pos..next], limit);
    assert text[..pos] + text[pos..next] == text[..next];
    hide Bounded;
    if pos < limit {
      TakeOfSlice(text, pos, next, Min(limit, next) - pos);
    }
  }

  lemma TailRead(a: string, b: string, limit: nat)
    ensures Bounded(Bounded(a, limit) + b, limit) == Bounded(a + b, limit)
  {
    if |a| > limit { TailOfTail(a, b, limit); }
  }

  lemma TailOfTail(a: string, b: string, limit: nat)
    requires |a| > limit
    ensures Bounded(Bounded(a, limit) + b, limit) == Bounded(a + b, limit)
  {
    var n, kept := |a| - limit, a[|a| - limit..] + b;
    assert Bounded(a, limit) == a[n..];
    assert Bounded(a + b, limit) == (a + b)[n + |b|..];
    assert Bounded(kept, limit) == kept[|b|..];
    hide Bounded;
    DropInFirst(a, b, n);
    DropTwice(a + b, n, |b|);
  }

  lemma TakeOfSlice<T>(s: seq<T>, i: nat, j: nat, n: nat)
    requires i <= j <= |s| && n <= j - i
    ensures s[..i + n] == s[..i] + s[i..j][..n]
  {
  }

  /** The stream is read in chunks; neither end needs more than `limit` characters. */
  method ReadExcerpt(text: string, limit: nat) returns (e: Excerpt)
    ensures e == ExcerptOf(text, limit)
  {
    hide Bounded;
    var head, tail, size, pos := "", "", 0, 0;
    NothingRead(limit);
    while true
      invariant size == pos <= |text|
      invariant head == text[..Min(limit, pos)]
      invariant tail == Bounded(text[..pos], limit)
      decreases |text| - pos
    {
      var next := Min(pos + ReadChunkChars, |text|);
      var chunk := text[pos..next];
      if chunk == [] { break; }
      ChunkRead(text, limit, pos, next);
      pos := next;
      size := size + |chunk|;
      var remaining := limit - |head|;
      if remaining > 0 {
        head := head + chunk[..Min(remaining, |chunk|)];
      }
      tail := Bounded(tail + chunk, limit);
    }
    assert text[..|text|] == text;
    AllRead(text, limit);
    e := Excerpt(head, tail, size);
  }

  function Marker(dropped: nat): (s: string) {
    "\n... [truncated " + Decimal(dropped) + " characters] ...\n"
  }

  function Render(e: Excerpt, kept: nat): (s: string)
    requires kept < e.size ==> (kept + 1) / 2 <= |e.head| && kept / 2 <= |e.tail|
  {
    if kept >= e.size then e.head
    else e.head[..(kept + 1) / 2] + Marker(e.size - kept) + e.tail[|e.tail| - kept / 2..]
  }

  /** The preview of `text` that keeps `kept` characters: its two ends, and the number
      of all characters between them. */
  function Cut(text: string, kept: nat): (s: string)
    requires kept < |text|
  {
    text[..(kept + 1) / 2] + Marker(|text| - kept) + text[|text| - kept / 2..]
  }

  lemma RenderIsCut(text: string, limit: nat, kept: nat)
    requires kept < |text| && kept <= limit
    ensures (kept + 1) / 2 <= |ExcerptOf(text, limit).head| && kept / 2 <= |ExcerptOf(text, limit).tail|
    ensures Render(ExcerptOf(text, limit), kept) == Cut(text, kept)
  {
    var e := ExcerptOf(text, limit);
    assert e.head[..(kept + 1) / 2] == text[..(kept + 1) / 2];
    assert e.tail[|e.tail| - kept / 2..] == text[|text| - kept / 2..];
  }

  /** The dropped characters are exactly the ones the marker counts. */
  lemma MarkerCountsDropped(text: string, kept: nat)
    requires kept < |text|
    ensures var dropped := text[(kept + 1) / 2..|text| - kept / 2];
            && |dropped| == |text| - kept
            && text == text[..(kept + 1) / 2] + dropped + text[|text| - kept / 2..]
            && Cut(text, kept) == text[..(kept + 1) / 2] + Marker(|dropped|) + text[|text| - kept / 2..]
  {
    hide Marker;
    var i, j := (kept + 1) / 2, |text| - kept / 2;
    assert i <= j && j - i == |text| - kept;
    ThreeParts(text, i, j);
  }

  lemma ThreeParts<T>(s: seq<T>, i: nat, j: nat)
    requires i <= j <= |s|
    ensures s == s[..i] + s[i..j] + s[j..]
  {
  }

  /** Length of the preview that keeps `kept` of `size` characters. */
  function CutLength(size: nat, kept: nat): (n: nat)
    requires kept <= size
  {
    kept + |Marker(size - kept)|
  }

  lemma {:induction false} CutLengthGrows(size: nat, j: nat, k: nat)
    requires j <= k <= size
    ensures CutLength(size, j) <= CutLength(size, k)
    ensures |Marker(size - k)| <= |Marker(size - j)|
    decreases k - j
  {
    DecimalGrows(size - k, size - j);
    if j < k {
      CutLengthGrows(size, j, k - 1);
      DecimalGrowsSlowly(size - k);
    }
  }

  /** One round of the loop. */
  function Shrink(size: nat, budget: nat, kept: nat): (r: nat)
    requires kept <= size
  {
    var next := kept - (CutLength(size, kept) - budget);
    if next < 0 then 0 else next
  }

  /** A round never goes past a cut that would have fitted, and makes progress while
      one exists. */
  lemma ShrinkStaysAbove(size: nat, budget: nat, kept: nat, best: nat)
    requires best <= kept <= size && CutLength(size, best) <= budget < CutLength(size, kept)
    ensures best <= Shrink(size, budget, kept) < kept
  {
    CutLengthGrows(size, best, kept);
  }

  /** The loop comes to an end exactly when the marker for the whole stream fits. If it
      does not, no cut fits and the loop goes round for ever. */
  lemma EndsExactlyWhenMarkerFits(size: nat, budget: nat)
    ensures |Marker(size)| <= budget <==> exists kept: nat :: kept <= size && CutLength(size, kept) <= budget
  {
    if |Marker(size)| <= budget {
      assert CutLength(size, 0) <= budget;
    } else {
      forall kept: nat | kept <= size ensures CutLength(size, kept) > budget {
        CutLengthGrows(size, 0, kept);
      }
    }
  }

  /** What the caller gets: the stream when it is short enough, and else the longest
      cut of it that fits with its marker. */
  ghost predicate IsPreview(text: string, budget: nat, preview: string) {
    if |text| <= budget then preview == text
    else exists kept: nat :: BestCut(|text|, budget, kept) && preview == Cut(text, kept)
  }

  ghost predicate BestCut(size: nat, budget: nat, kept: nat) {
    && kept < size
    && CutLength(size, kept) <= budget
    && forall k: nat :: k <= size && CutLength(size, k) <= budget ==> k <= kept
  }

  /** A round that changes nothing is the last that matters: the source repeats it for
      ever, which is None here. That happens exactly when the marker for the whole stream
      does not fit; otherwise the loop ends with the preview. */
  method ReadPreview(text: string, budget: nat) returns (preview: Option<string>, size: nat)
    ensures size == |text|
    ensures preview.None? <==> |text| > budget && |Marker(|text|)| > budget
    ensures preview.Some? ==> |preview.value| <= budget && IsPreview(text, budget, preview.value)
  {
    hide Marker;
    var e := ReadExcerpt(text, budget);
    size := e.size;
    if size <= budget {
      assert text[..|text|] == text;
      return Some(e.head), size;
    }
    EndsExactlyWhenMarkerFits(size, budget);
    var kept := budget;
    while true
      invariant 0 <= kept <= budget < size == |text| && e == ExcerptOf(text, budget)
      invariant forall k: nat :: k <= size && CutLength(size, k) <= budget ==> k <= kept
      decreases kept
    {
      RenderIsCut(text, budget, kept);
      var rendered := Render(e, kept);
      var overflow := |rendered| - budget;
      assert |rendered| == CutLength(size, kept);
      if overflow <= 0 {
        assert BestCut(size, budget, kept);
        return Some(rendered), size;
      }
      forall k: nat | k <= size && CutLength(size, k) <= budget ensures k <= Shrink(size, budget, kept) {
        ShrinkStaysAbove(size, budget, kept, k);
      }
      var next := if kept - overflow < 0 then 0 else kept - overflow;
      assert next == Shrink(size, budget, kept);
      if next == kept {
        return None, size;
      }
      kept := next;
    }
  }

  /** The best cut is unique, so the preview is determined by the stream and budget. */
  lemma PreviewUnique(text: string, budget: nat, a: string, b: string)
    requires IsPreview(text, budget, a) && IsPreview(text, budget, b)
    ensures a == b
  {
    hide Marker, Cut;
    if |text| > budget {
      var i: nat :| BestCut(|text|, budget, i) && a == Cut(text, i);
      var j: nat :| BestCut(|text|, budget, j) && b == Cut(text, j);
      assert i == j;
    }
  }

  /** The first `a` characters, the notice of how many are left out, and the last `b`. */
  function Ends(text: string, a: nat, b: nat): (s: string)
    requires a + b <= |text|
  {
    text[..a] + "\n... [truncated " + Decimal(|text| - a - b) + " characters] ...\n" + text[|text| - b..]
  }

  /** The preview of a text that is too long has equal ends, or one character more in front.
      With longer ends of that kind it would not fit. */
  lemma PreviewKeepsEnds(text: string, budget: nat, preview: string) returns (a: nat, b: nat)
    requires |text| > budget && IsPreview(text, budget, preview)
    ensures a + b < |text| && b <= a <= b + 1 && preview == Ends(text, a, b) && |preview| <= budget
    ensures forall i: nat, j: nat :: a + b < i + j <= |text| && j <= i <= j + 1 ==> |Ends(text, i, j)| > budget
  {
    var kept: nat :| BestCut(|text|, budget, kept) && preview == Cut(text, kept);
    a, b := (kept + 1) / 2, kept / 2;
    CutIsEnds(text, kept);
    hide Ends, CutLength, Cut, Marker;
    EndsCost(text, a, b);
    forall i: nat, j: nat | a + b < i + j <= |text| && j <= i <= j + 1 ensures |Ends(text, i, j)| > budget {
      EndsCost(text, i, j);
    }
  }

  lemma CutIsEnds(text: string, kept: nat)
    requires kept < |text|
    ensures Cut(text, kept) == Ends(text, (kept + 1) / 2, kept / 2)
  {
    hide Decimal;
  }

  lemma EndsCost(text: string, a: nat, b: nat)
    requires a + b <= |text|
    ensures |Ends(text, a, b)| == CutLength(|text|, a + b)
  {
    hide Decimal;
  }

  /** Shrinking can lengthen the marker: here the first round leaves a preview that is
      still one character too long. */
  lemma OneRoundIsNotEnough()
    ensures var size, budget := 139, 130;
            && Shrink(size, budget, budget) == 96
            && CutLength(size, 96) == 131 > budget
            && Shrink(size, budget, 96) == 95
            && CutLength(size, 95) == budget
  {
    assert |Decimal(9)| == 1 && |Decimal(43)| == 2 && |Decimal(44)| == 2;
  }
}
