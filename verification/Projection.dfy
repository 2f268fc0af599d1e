/** Grouping of the raw item history into indivisible context units. A message is
    identified by its index in the whole history. */
module Projection {
  import opened Common
  import opened Messages

  datatype ContextUnit = ContextUnit(start: nat, end: nat, messages: seq<nat>) {
    predicate Visible() { messages != [] }
  }

  /** May follow a tool-calling message inside its unit. */
  predicate Follows(m: Message) {
    m.role == ToolRole || m.origin == ToolMedia || m.origin == UserInteraction || m.origin == HookFeedback
    || m.origin == ToolDelivery
  }

  predicate CallsTools(m: Message) {
    m.role == AssistantRole && m.toolCalls != []
  }

  predicate Trails(m: Message) {
    m.origin == ToolMedia || m.origin == UserInteraction || m.origin == HookFeedback
  }

  predicate Answers(m: Message, calls: seq<ToolCall>) {
    m.toolCallId.Some? && exists c :: 0 <= c < |calls| && calls[c].id == m.toolCallId.value
  }

  /** First index from `i` on that cannot belong to a batch. */
  function SpanEnd(items: seq<Message>, i: nat): (end: nat)
    requires i <= |items|
    ensures i <= end <= |items|
    ensures forall j :: i <= j < end ==> Follows(items[j])
    ensures end < |items| ==> !Follows(items[end])
    decreases |items| - i
  {
    if i < |items| && Follows(items[i]) then SpanEnd(items, i + 1) else i
  }

  /** The last message in [lo, hi) that answers call `id`. */
  function ResultOf(items: seq<Message>, lo: nat, hi: nat, id: Id): (r: Option<nat>)
    requires lo <= hi <= |items|
    ensures r.Some? ==> lo <= r.value < hi && items[r.value].toolCallId == Some(id)
                        && forall j :: r.value < j < hi ==> items[j].toolCallId != Some(id)
    ensures r.None? ==> forall j :: lo <= j < hi ==> items[j].toolCallId != Some(id)
  {
    if lo == hi then None
    else if items[hi - 1].toolCallId == Some(id) then Some(hi - 1)
    else ResultOf(items, lo, hi - 1, id)
  }

  predicate Complete(items: seq<Message>, calls: seq<ToolCall>, lo: nat, hi: nat)
    requires lo <= hi <= |items|
  {
    forall c :: 0 <= c < |calls| ==> ResultOf(items, lo, hi, calls[c].id).Some?
  }

  function Results(items: seq<Message>, calls: seq<ToolCall>, lo: nat, hi: nat): (r: seq<nat>)
    requires lo <= hi <= |items| && Complete(items, calls, lo, hi)
    ensures |r| == |calls|
  {
    seq(|calls|, c requires 0 <= c < |calls| => ResultOf(items, lo, hi, calls[c].id).value)
  }

  /** Indices in [lo, hi) of the messages that trail the results, in journal order. */
  function Trailing(items: seq<Message>, calls: seq<ToolCall>, lo: nat, hi: nat): (r: seq<nat>)
    requires lo <= hi <= |items|
  {
    if lo == hi then []
    else
      Trailing(items, calls, lo, hi - 1)
      + if Trails(items[hi - 1]) && !Answers(items[hi - 1], calls) then [hi - 1] else []
  }

  lemma {:induction false} TrailingExact(items: seq<Message>, calls: seq<ToolCall>, lo: nat, hi: nat)
    requires lo <= hi <= |items|
    ensures var r := Trailing(items, calls, lo, hi);
            && (forall k :: 0 <= k < |r| ==> lo <= r[k] < hi && Trails(items[r[k]]) && !Answers(items[r[k]], calls))
            && (forall j, k :: 0 <= j < k < |r| ==> r[j] < r[k])
            && (forall j :: lo <= j < hi && Trails(items[j]) && !Answers(items[j], calls) ==> j in r)
    decreases hi
  {
    hide Answers, Trails;
    if lo < hi { TrailingExact(items, calls, lo, hi - 1); }
  }

  /** What a batch shows: the call message, the results in call order, the trailing
      messages; nothing while a result is missing. */
  function BatchMessages(items: seq<Message>, i: nat, end: nat): (r: seq<nat>)
    requires i < end <= |items|
  {
    var calls := items[i].toolCalls;
    if Complete(items, calls, i + 1, end)
    then [i] + Results(items, calls, i + 1, end) + Trailing(items, calls, i + 1, end)
    else []
  }

  /** The unit that starts at index `i`. */
  function UnitAt(items: seq<Message>, i: nat): (u: ContextUnit)
    requires i < |items|
    ensures u.start == i < u.end <= |items|
  {
    var m := items[i];
    if CallsTools(m) then
      var end := SpanEnd(items, i + 1);
      ContextUnit(i, end, BatchMessages(items, i, end))
    else
      ContextUnit(i, i + 1, if m.role == ToolRole || m.origin == ToolDelivery then [] else [i])
  }

  /** The units from index `i` of the history on. */
  function Units(items: seq<Message>, i: nat): (units: seq<ContextUnit>)
    requires i <= |items|
    decreases |items| - i
  {
    if i == |items| then [] else [UnitAt(items, i)] + Units(items, UnitAt(items, i).end)
  }

  // ---------------------------------------------------------------- what a unit shows

  /** The calls of message `b` and the run of messages up to `e` that belong to them. */
  ghost predicate IsBatch(items: seq<Message>, b: nat, e: nat) {
    && b < e <= |items|
    && items[b].role == AssistantRole && items[b].toolCalls != []
    && (forall j :: b < j < e ==>
          items[j].role == ToolRole || items[j].origin in {ToolMedia, UserInteraction, HookFeedback, ToolDelivery})
    && (e < |items| ==>
          items[e].role != ToolRole && items[e].origin !in {ToolMedia, UserInteraction, HookFeedback, ToolDelivery})
  }

  ghost predicate AnsweredIn(items: seq<Message>, b: nat, e: nat, id: Id)
    requires e <= |items|
  {
    exists j :: b < j < e && items[j].toolCallId == Some(id)
  }

  ghost predicate LastAnswer(items: seq<Message>, b: nat, e: nat, id: Id, j: nat)
    requires e <= |items|
  {
    b < j < e && items[j].toolCallId == Some(id) && forall k :: j < k < e ==> items[k].toolCallId != Some(id)
  }

  /** A batch is one unit. Without an answer to some call it shows nothing; otherwise the
      calls, the last answer to each in call order, and in order the media, interactions
      and feedback of the run that answer no call. */
  lemma BatchUnit(items: seq<Message>, b: nat, e: nat)
    requires IsBatch(items, b, e)
    ensures var calls, u := items[b].toolCalls, UnitAt(items, b);
            && u.end == e
            && (u.messages != [] <==> forall c :: 0 <= c < |calls| ==> AnsweredIn(items, b, e, calls[c].id))
            && (u.messages != [] ==>
                  && |u.messages| > |calls| && u.messages[0] == b
                  && (forall c :: 0 <= c < |calls| ==> LastAnswer(items, b, e, calls[c].id, u.messages[1 + c]))
                  && (forall j, k :: |calls| < j < k < |u.messages| ==> u.messages[j] < u.messages[k])
                  && (forall i :: i in u.messages[1 + |calls|..] <==>
                        b < i < e && items[i].origin in {ToolMedia, UserInteraction, HookFeedback}
                        && (items[i].toolCallId.None?
                            || forall c :: 0 <= c < |calls| ==> calls[c].id != items[i].toolCallId.value)))
  {
    var calls := items[b].toolCalls;
    BatchSpan(items, b + 1, e);
    assert UnitAt(items, b) == ContextUnit(b, e, BatchMessages(items, b, e));
    BatchAnswered(items, b, e);
    hide UnitAt, AnsweredIn, LastAnswer;
    if Complete(items, calls, b + 1, e) {
      BatchParts(items, b, e);
      hide BatchMessages, Complete;
      TrailingMembers(items, b, e);
    }
  }

  lemma TrailingMembers(items: seq<Message>, b: nat, e: nat)
    requires b < e <= |items|
    ensures var calls, t := items[b].toolCalls, Trailing(items, items[b].toolCalls, b + 1, e);
            && (forall j, k :: 0 <= j < k < |t| ==> t[j] < t[k])
            && (forall i :: i in t <==>
                  b < i < e && items[i].origin in {ToolMedia, UserInteraction, HookFeedback}
                  && (items[i].toolCallId.None?
                      || forall c :: 0 <= c < |calls| ==> calls[c].id != items[i].toolCallId.value))
  {
    TrailingExact(items, items[b].toolCalls, b + 1, e);
    hide Trailing;
  }

  lemma {:induction false} BatchSpan(items: seq<Message>, i: nat, e: nat)
    requires i <= e <= |items| && forall j :: i <= j < e ==> Follows(items[j])
    requires e < |items| ==> !Follows(items[e])
    ensures SpanEnd(items, i) == e
    decreases e - i
  {
    if i < e { BatchSpan(items, i + 1, e); }
  }

  lemma BatchAnswered(items: seq<Message>, b: nat, e: nat)
    requires b < e <= |items|
    ensures var calls := items[b].toolCalls;
            Complete(items, calls, b + 1, e) <==> forall c :: 0 <= c < |calls| ==> AnsweredIn(items, b, e, calls[c].id)
  {
    var calls := items[b].toolCalls;
    forall c | 0 <= c < |calls|
      ensures ResultOf(items, b + 1, e, calls[c].id).Some? <==> AnsweredIn(items, b, e, calls[c].id)
    {
      var r := ResultOf(items, b + 1, e, calls[c].id);
      assert r.Some? ==> items[r.value].toolCallId == Some(calls[c].id);
    }
  }

  lemma BatchParts(items: seq<Message>, b: nat, e: nat)
    requires b < e <= |items| && Complete(items, items[b].toolCalls, b + 1, e)
    ensures var calls, m := items[b].toolCalls, BatchMessages(items, b, e);
            && |m| > |calls| && m[0] == b
            && (forall c :: 0 <= c < |calls| ==> LastAnswer(items, b, e, calls[c].id, m[1 + c]))
            && m[1 + |calls|..] == Trailing(items, calls, b + 1, e)
            && (forall k :: |calls| < k < |m| ==> m[k] == Trailing(items, calls, b + 1, e)[k - 1 - |calls|])
  {
    var calls, m := items[b].toolCalls, BatchMessages(items, b, e);
    var results, trailing := Results(items, calls, b + 1, e), Trailing(items, calls, b + 1, e);
    assert m == [b] + results + trailing;
    hide Trailing, BatchMessages;
    forall c | 0 <= c < |calls| ensures LastAnswer(items, b, e, calls[c].id, m[1 + c]) {
      assert m[1 + c] == results[c];
    }
  }

  // ---------------------------------------------------------------- partition

  /** Units cover [from, to) without gaps or overlaps. */
  ghost predicate Covers(units: seq<ContextUnit>, from: nat, to: nat) {
    if units == [] then from == to
    else units[0].start == from && units[0].start < units[0].end && Covers(units[1..], units[0].end, to)
  }

  lemma {:induction false} UnitsCover(items: seq<Message>, i: nat)
    requires i <= |items|
    ensures Covers(Units(items, i), i, |items|)
    decreases |items| - i
  {
    if i < |items| {
      UnitsCover(items, UnitAt(items, i).end);
      assert Units(items, i)[1..] == Units(items, UnitAt(items, i).end);
    }
  }

  lemma {:induction false} CoversAt(units: seq<ContextUnit>, from: nat, to: nat, k: nat)
    requires Covers(units, from, to) && k < |units|
    ensures from <= units[k].start < units[k].end <= to
    ensures k == 0 ==> units[k].start == from
    ensures k > 0 ==> units[k].start == units[k - 1].end
    ensures k == |units| - 1 ==> units[k].end == to
  {
    CoversOrder(units[1..], units[0].end, to);
    if k > 0 {
      CoversAt(units[1..], units[0].end, to, k - 1);
      assert units[1..][k - 1] == units[k];
    }
  }

  lemma {:induction false} CoversOrder(units: seq<ContextUnit>, from: nat, to: nat)
    requires Covers(units, from, to)
    ensures from <= to
    ensures units == [] <==> from == to
  {
    if units != [] { CoversOrder(units[1..], units[0].end, to); }
  }

  // ---------------------------------------------------------------- boundaries

  /** `c` is the start of some unit of the projection of the whole history. */
  ghost predicate StartsUnit(items: seq<Message>, c: nat) {
    exists k :: 0 <= k < |Units(items, 0)| && Units(items, 0)[k].start == c
  }

  /** Projection is a left-to-right parse: from unit k on, nothing depends on what
      came before. */
  lemma {:induction false} UnitsFrom(items: seq<Message>, i: nat, k: nat)
    requires i <= |items| && k < |Units(items, i)|
    ensures Units(items, i)[k].start <= |items|
    ensures Units(items, i)[k..] == Units(items, Units(items, i)[k].start)
    decreases k
  {
    if k > 0 {
      var next := UnitAt(items, i).end;
      assert Units(items, i)[1..] == Units(items, next);
      UnitsFrom(items, next, k - 1);
      assert Units(items, i)[k] == Units(items, next)[k - 1];
      assert Units(items, i)[k..] == Units(items, next)[k - 1..];
    }
  }

  /** Appending can only change the last unit: everything in front of its start, and
      its start, stay. */
  lemma {:induction false} UnitsGrow(items: seq<Message>, more: seq<Message>, i: nat, k: nat)
    requires i <= |items| && k < |Units(items, i)|
    ensures k < |Units(items + more, i)|
    ensures Units(items + more, i)[..k] == Units(items, i)[..k]
    ensures Units(items + more, i)[k].start == Units(items, i)[k].start
    decreases k
  {
    if k > 0 {
      var u := UnitAt(items, i);
      var next := u.end;
      assert Units(items, i)[1..] == Units(items, next);
      UnitStable(items, more, i);
      UnitsGrow(items, more, next, k - 1);
      assert Units(items + more, i)[1..] == Units(items + more, next);
      assert Units(items, i)[..k] == [u] + Units(items, next)[..k - 1];
      assert Units(items + more, i)[..k] == [u] + Units(items + more, next)[..k - 1];
    }
  }

  /** A unit that does not reach the end of the history is final. */
  lemma UnitStable(items: seq<Message>, more: seq<Message>, i: nat)
    requires i < |items| && UnitAt(items, i).end < |items|
    ensures UnitAt(items + more, i) == UnitAt(items, i)
  {
    var longer := items + more;
    if CallsTools(items[i]) {
      var calls, lo, end := items[i].toolCalls, i + 1, SpanEnd(items, i + 1);
      assert end == SpanEnd(longer, lo) by { SpanEndStable(items, more, lo); }
      forall c | 0 <= c < |calls|
        ensures ResultOf(longer, lo, end, calls[c].id) == ResultOf(items, lo, end, calls[c].id)
      {
        ResultStable(items, more, lo, end, calls[c].id);
      }
      TrailingStable(items, more, calls, lo, end);
      if Complete(items, calls, lo, end) {
        assert Results(longer, calls, lo, end) == Results(items, calls, lo, end);
      }
    }
  }

  lemma {:induction false} SpanEndStable(items: seq<Message>, more: seq<Message>, i: nat)
    requires i <= |items| && SpanEnd(items, i) < |items|
    ensures SpanEnd(items + more, i) == SpanEnd(items, i)
    decreases |items| - i
  {
    if Follows(items[i]) { SpanEndStable(items, more, i + 1); }
  }

  lemma {:induction false} ResultStable(items: seq<Message>, more: seq<Message>, lo: nat, hi: nat, id: Id)
    requires lo <= hi <= |items|
    ensures ResultOf(items + more, lo, hi, id) == ResultOf(items, lo, hi, id)
    decreases hi
  {
    if lo < hi { ResultStable(items, more, lo, hi - 1, id); }
  }

  lemma {:induction false} TrailingStable(items: seq<Message>, more: seq<Message>, calls: seq<ToolCall>, lo: nat,
      hi: nat)
    requires lo <= hi <= |items|
    ensures Trailing(items + more, calls, lo, hi) == Trailing(items, calls, lo, hi)
    decreases hi
  {
    if lo < hi { TrailingStable(items, more, calls, lo, hi - 1); }
  }

  lemma StartsUnitGrows(items: seq<Message>, more: seq<Message>, c: nat)
    requires StartsUnit(items, c)
    ensures StartsUnit(items + more, c)
  {
    var k :| 0 <= k < |Units(items, 0)| && Units(items, 0)[k].start == c;
    UnitsGrow(items, more, 0, k);
  }

  /** Projecting from a unit boundary yields exactly the rest of the projection. */
  lemma SuffixProjection(items: seq<Message>, c: nat) returns (k: nat)
    requires StartsUnit(items, c)
    ensures c < |items| && k < |Units(items, 0)|
    ensures Units(items, 0)[k].start == c
    ensures Units(items, 0) == Units(items, 0)[..k] + Units(items, c)
  {
    k :| 0 <= k < |Units(items, 0)| && Units(items, 0)[k].start == c;
    UnitsFrom(items, 0, k);
    assert Units(items, c) != [];
    hide Units;
  }

  // ---------------------------------------------------------------- slices

  function ShiftIndices(indices: seq<nat>, n: nat): (r: seq<nat>) {
    seq(|indices|, i requires 0 <= i < |indices| => indices[i] + n)
  }

  function Shift(u: ContextUnit, n: nat): (r: ContextUnit) {
    ContextUnit(u.start + n, u.end + n, ShiftIndices(u.messages, n))
  }

  function ShiftUnits(units: seq<ContextUnit>, n: nat): (r: seq<ContextUnit>) {
    seq(|units|, i requires 0 <= i < |units| => Shift(units[i], n))
  }

  lemma {:induction false} SliceSpanEnd(items: seq<Message>, c: nat, i: nat)
    requires c + i <= |items|
    ensures SpanEnd(items, c + i) == c + SpanEnd(items[c..], i)
    decreases |items| - i
  {
    if c + i < |items| && Follows(items[c + i]) {
      SliceSpanEnd(items, c, i + 1);
    }
  }

  lemma {:induction false} SliceResult(items: seq<Message>, c: nat, lo: nat, hi: nat, id: Id)
    requires lo <= hi && c + hi <= |items|
    ensures var r := ResultOf(items[c..], lo, hi, id);
            ResultOf(items, c + lo, c + hi, id) == if r.Some? then Some(c + r.value) else None
    decreases hi
  {
    if lo < hi {
      assert items[c..][hi - 1] == items[c + hi - 1];
      SliceResult(items, c, lo, hi - 1, id);
    }
  }

  lemma ShiftConcat(a: seq<nat>, b: seq<nat>, n: nat)
    ensures ShiftIndices(a + b, n) == ShiftIndices(a, n) + ShiftIndices(b, n)
  {
  }

  lemma {:induction false} SliceTrailing(items: seq<Message>, c: nat, calls: seq<ToolCall>, lo: nat, hi: nat)
    requires lo <= hi && c + hi <= |items|
    ensures Trailing(items, calls, c + lo, c + hi) == ShiftIndices(Trailing(items[c..], calls, lo, hi), c)
    decreases hi
  {
    hide Answers, Trails;
    if lo < hi {
      assert items[c..][hi - 1] == items[c + hi - 1];
      SliceTrailing(items, c, calls, lo, hi - 1);
      ShiftConcat(Trailing(items[c..], calls, lo, hi - 1), [hi - 1], c);
    }
  }

  lemma SliceResults(items: seq<Message>, c: nat, calls: seq<ToolCall>, lo: nat, hi: nat)
    requires lo <= hi && c + hi <= |items|
    ensures Complete(items, calls, c + lo, c + hi) <==> Complete(items[c..], calls, lo, hi)
    ensures Complete(items[c..], calls, lo, hi) ==>
              Results(items, calls, c + lo, c + hi) == ShiftIndices(Results(items[c..], calls, lo, hi), c)
  {
    forall k | 0 <= k < |calls|
      ensures var r := ResultOf(items[c..], lo, hi, calls[k].id);
              ResultOf(items, c + lo, c + hi, calls[k].id) == if r.Some? then Some(c + r.value) else None
    {
      SliceResult(items, c, lo, hi, calls[k].id);
    }
  }

  lemma SliceBatch(items: seq<Message>, c: nat, i: nat, end: nat)
    requires i < end && c + end <= |items|
    ensures BatchMessages(items, c + i, c + end) == ShiftIndices(BatchMessages(items[c..], i, end), c)
  {
    hide Complete, Results, Trailing, ShiftIndices;
    var tail, calls := items[c..], items[c + i].toolCalls;
    assert tail[i] == items[c + i];
    assert c + i + 1 == c + (i + 1);
    SliceResults(items, c, calls, i + 1, end);
    SliceTrailing(items, c, calls, i + 1, end);
    if Complete(tail, calls, i + 1, end) {
      ShiftConcat([i] + Results(tail, calls, i + 1, end), Trailing(tail, calls, i + 1, end), c);
      ShiftConcat([i], Results(tail, calls, i + 1, end), c);
    }
    hide Shift;
    ShiftOne(i, c);
  }

  lemma ShiftOne(i: nat, n: nat)
    ensures ShiftIndices([i], n) == [n + i] && ShiftIndices([], n) == []
  {
  }

  lemma SliceUnit(items: seq<Message>, c: nat, i: nat)
    requires c + i < |items|
    ensures UnitAt(items, c + i) == Shift(UnitAt(items[c..], i), c)
  {
    hide BatchMessages, CallsTools;
    assert items[c..][i] == items[c + i];
    if CallsTools(items[c + i]) {
      SliceSpanEnd(items, c, i + 1);
      SliceBatch(items, c, i, SpanEnd(items[c..], i + 1));
    }
  }

  /** The source projects the slice behind the cursor and adds the cursor to every
      bound; that is the projection of the history from the cursor. */
  lemma {:induction false} SliceUnits(items: seq<Message>, c: nat, i: nat)
    requires c + i <= |items|
    ensures Units(items, c + i) == ShiftUnits(Units(items[c..], i), c)
    decreases |items| - i
  {
    hide UnitAt, Units, Shift, ShiftUnits;
    if c + i == |items| {
      NoUnits(items, c, i);
    } else {
      SliceUnit(items, c, i);
      var unit := UnitAt(items[c..], i);
      assert UnitAt(items, c + i).end == c + unit.end by { ShiftedEnd(unit, c); }
      UnitsCons(items[c..], i);
      UnitsCons(items, c + i);
      SliceUnits(items, c, unit.end);
      ShiftUnitsCons(unit, Units(items[c..], unit.end), c);
    }
  }

  lemma NoUnits(items: seq<Message>, c: nat, i: nat)
    requires c + i == |items|
    ensures Units(items, c + i) == ShiftUnits(Units(items[c..], i), c)
  {
  }

  lemma UnitsCons(items: seq<Message>, i: nat)
    requires i < |items|
    ensures Units(items, i) == [UnitAt(items, i)] + Units(items, UnitAt(items, i).end)
  {
  }

  lemma ShiftedEnd(u: ContextUnit, n: nat)
    ensures Shift(u, n).end == n + u.end
  {
  }

  lemma ShiftUnitsCons(unit: ContextUnit, rest: seq<ContextUnit>, n: nat)
    ensures ShiftUnits([unit] + rest, n) == [Shift(unit, n)] + ShiftUnits(rest, n)
  {
  }

  // ---------------------------------------------------------------- the loop

  /** One batch: the inner loop fills `found` and `trailing` until the span ends. */
  method ScanBatch(history: seq<Message>, index: nat) returns (end: nat, found: map<Id, nat>, trailing: seq<nat>)
    requires index < |history|
    ensures end == SpanEnd(history, index + 1)
    ensures trailing == Trailing(history, history[index].toolCalls, index + 1, end)
    ensures forall c :: 0 <= c < |history[index].toolCalls| ==>
              var id := history[index].toolCalls[c].id;
              ResultOf(history, index + 1, end, id) == if id in found then Some(found[id]) else None
  {
    var calls := history[index].toolCalls;
    end, found, trailing := index + 1, map[], [];
    while end < |history| && Follows(history[end])
      invariant index + 1 <= end <= |history|
      invariant SpanEnd(history, end) == SpanEnd(history, index + 1)
      invariant trailing == Trailing(history, calls, index + 1, end)
      invariant forall c :: 0 <= c < |calls| ==>
                  ResultOf(history, index + 1, end, calls[c].id) ==
                  if calls[c].id in found then Some(found[calls[c].id]) else None
    {
      var following := history[end];
      if Answers(following, calls) {
        found := found[following.toolCallId.value := end];
      } else if Trails(following) {
        trailing := trailing + [end];
      }
      end := end + 1;
    }
  }

  method BuildUnit(history: seq<Message>, index: nat) returns (unit: ContextUnit)
    requires index < |history|
    ensures unit == UnitAt(history, index)
  {
    var item := history[index];
    if CallsTools(item) {
      var end, found, trailing := ScanBatch(history, index);
      var calls := item.toolCalls;
      var messages := [];
      if forall c :: 0 <= c < |calls| ==> calls[c].id in found {
        var results := seq(|calls|, c requires 0 <= c < |calls| => found[calls[c].id]);
        assert Complete(history, calls, index + 1, end);
        assert results == Results(history, calls, index + 1, end);
        messages := [index] + results + trailing;
      }
      unit := ContextUnit(index, end, messages);
    } else {
      var hidden := item.role == ToolRole || item.origin == ToolDelivery;
      unit := ContextUnit(index, index + 1, if hidden then [] else [index]);
    }
  }

  method ProjectContextUnits(history: seq<Message>, startIndex: nat) returns (result: seq<ContextUnit>)
    ensures result == ShiftUnits(Units(history, 0), startIndex)
  {
    result := [];
    var index := 0;
    while index < |history|
      invariant 0 <= index <= |history|
      invariant ShiftUnits(Units(history, 0), startIndex) == result + ShiftUnits(Units(history, index), startIndex)
    {
      hide UnitAt;
      var unit := BuildUnit(history, index);
      var rest := Units(history, unit.end);
      ShiftUnitsCons(unit, rest, startIndex);
      result := result + [Shift(unit, startIndex)];
      index := unit.end;
    }
  }
}
