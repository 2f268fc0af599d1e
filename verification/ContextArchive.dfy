/** Archiving of old context units behind a moving cursor, and the request that is
    built from the archived anchors and the live units. */
module ContextArchive {
  import opened Common
  import opened Messages
  import opened Projection
  import Session

  // ---------------------------------------------------------------- what can be archived

  function VisibleUnits(units: seq<ContextUnit>): (r: seq<ContextUnit>) {
    if units == [] then []
    else (if units[0].Visible() then [units[0]] else []) + VisibleUnits(units[1..])
  }

  function UnitsUpTo(units: seq<ContextUnit>, limit: nat): (r: seq<ContextUnit>) {
    if units == [] then []
    else (if units[0].end <= limit then [units[0]] else []) + UnitsUpTo(units[1..], limit)
  }

  function Archivable(items: seq<Message>, cursor: nat, keep: nat): (r: seq<ContextUnit>)
    requires cursor <= |items| && keep >= 1
  {
    var units := Units(items, cursor);
    var visible := VisibleUnits(units);
    if |visible| <= keep then [] else UnitsUpTo(units, visible[|visible| - keep].start)
  }

  /** The cursor after one successful archive. */
  function ArchiveEnd(items: seq<Message>, cursor: nat, keep: nat): (r: nat)
    requires cursor <= |items| && keep >= 1
  {
    var units := Archivable(items, cursor, keep);
    if units == [] then cursor else Last(units).end
  }

  lemma VisibleCons(units: seq<ContextUnit>)
    ensures VisibleUnits(units) ==
            if units == [] then [] else (if units[0].Visible() then [units[0]] else []) + VisibleUnits(units[1..])
  {
  }

  /** The j-th visible unit, found in the unit list. */
  lemma {:induction false} VisiblePosition(units: seq<ContextUnit>, j: nat) returns (k: nat)
    requires j < |VisibleUnits(units)|
    ensures k < |units| && units[k] == VisibleUnits(units)[j] && units[k].Visible()
    ensures j <= k
    ensures VisibleUnits(units[k..]) == VisibleUnits(units)[j..]
    ensures VisibleUnits(units[..k]) == VisibleUnits(units)[..j]
  {
    VisibleCons(units);
    VisibleCons([]);
    hide VisibleUnits;
    if units[0].Visible() && j == 0 {
      k := 0;
      assert units[0..] == units && units[..0] == [];
    } else {
      var seen, rest := if units[0].Visible() then [units[0]] else [], units[1..];
      k := VisiblePosition(rest, j - |seen|);
      TailOfTake(units, k);
      VisibleCons(units[..k + 1]);
      TakeBeyondFirst(seen, VisibleUnits(rest), j);
      DropBeyondFirst(seen, VisibleUnits(rest), j);
      k := k + 1;
    }
  }

  /** Units that end by the start of unit k are exactly the units before it. */
  lemma {:induction false} UpToIsPrefix(units: seq<ContextUnit>, from: nat, to: nat, k: nat)
    requires Covers(units, from, to) && k < |units|
    ensures UnitsUpTo(units, units[k].start) == units[..k]
  {
    CoversAt(units, from, to, k);
    if k == 0 {
      UpToNothing(units, from, to, from);
    } else {
      CoversAt(units[1..], units[0].end, to, k - 1);
      UpToIsPrefix(units[1..], units[0].end, to, k - 1);
      hide Covers;
      assert units[..k] == [units[0]] + units[1..][..k - 1];
    }
  }

  lemma {:induction false} UpToNothing(units: seq<ContextUnit>, from: nat, to: nat, limit: nat)
    requires Covers(units, from, to) && limit <= from
    ensures UnitsUpTo(units, limit) == []
  {
    if units != [] { UpToNothing(units[1..], units[0].end, to, limit); }
  }

  /** Archiving takes a non-empty prefix of the units that ends at a unit start,
      shows something, and leaves exactly `keep` visible units. */
  lemma ArchiveStep(items: seq<Message>, cursor: nat, keep: nat) returns (k: nat)
    requires cursor <= |items| && keep >= 1
    requires Archivable(items, cursor, keep) != []
    ensures var units := Units(items, cursor);
            && 0 < k < |units|
            && Archivable(items, cursor, keep) == units[..k]
            && VisibleUnits(units[..k]) != []
            && ArchiveEnd(items, cursor, keep) == units[k].start
            && cursor < units[k].start < |items|
            && Units(items, units[k].start) == units[k..]
            && |VisibleUnits(units[k..])| == keep
  {
    var units := Units(items, cursor);
    var visible := VisibleUnits(units);
    k := VisiblePosition(units, |visible| - keep);
    hide Units, Covers;
    UnitsCover(items, cursor);
    UpToIsPrefix(units, cursor, |items|, k);
    CoversAt(units, cursor, |items|, k);
    UnitsFrom(items, cursor, k);
    if k > 0 { CoversAt(units, cursor, |items|, k - 1); }
  }

  /** Archiving happens exactly when more than `keep` units are visible. */
  lemma ArchivableWhen(items: seq<Message>, cursor: nat, keep: nat)
    requires cursor <= |items| && keep >= 1
    ensures Archivable(items, cursor, keep) != [] <==> |VisibleUnits(Units(items, cursor))| > keep
  {
    var units := Units(items, cursor);
    var visible := VisibleUnits(units);
    if |visible| > keep {
      var k := VisiblePosition(units, |visible| - keep);
      UnitsCover(items, cursor);
      UpToIsPrefix(units, cursor, |items|, k);
      hide Units, VisibleUnits, UnitsUpTo, Covers;
      assert units[..k] != [];
    }
  }

  /** After an archive there is nothing to archive until one more unit is visible. */
  lemma ArchiveSettles(items: seq<Message>, more: seq<Message>, cursor: nat, keep: nat)
    requires cursor <= |items| && keep >= 1 && Archivable(items, cursor, keep) != []
    ensures var c := ArchiveEnd(items, cursor, keep);
            && cursor < c <= |items|
            && Archivable(items, c, keep) == []
            && (|VisibleUnits(Units(items + more, c))| <= keep ==> Archivable(items + more, c, keep) == [])
  {
    var k := ArchiveStep(items, cursor, keep);
  }

  // ---------------------------------------------------------------- runs

  datatype Change = Appended(message: Message) | Archived(keep: nat)

  datatype History = History(items: seq<Message>, cursor: nat) {
    ghost predicate Valid() {
      cursor <= |items| && (cursor == 0 || StartsUnit(items, cursor))
    }
  }

  function Next(h: History, change: Change): (r: History)
    requires h.cursor <= |h.items|
    requires change.Archived? ==> change.keep >= 1
  {
    match change
    case Appended(m) => h.(items := h.items + [m])
    case Archived(keep) => h.(cursor := ArchiveEnd(h.items, h.cursor, keep))
  }

  lemma NextKeepsBoundary(h: History, change: Change)
    requires h.Valid() && (change.Archived? ==> change.keep >= 1)
    ensures Next(h, change).Valid()
    ensures h.cursor <= Next(h, change).cursor
  {
    match change
    case Appended(m) =>
      if h.cursor > 0 { StartsUnitGrows(h.items, [m], h.cursor); }
    case Archived(keep) =>
      if Archivable(h.items, h.cursor, keep) != [] {
        var k := ArchiveStep(h.items, h.cursor, keep);
        var units := Units(h.items, h.cursor);
        if h.cursor == 0 {
          assert units[k].start == ArchiveEnd(h.items, h.cursor, keep);
        } else {
          var j := SuffixProjection(h.items, h.cursor);
          assert Units(h.items, 0)[j + k] == units[k];
        }
      }
  }

  predicate Sensible(changes: seq<Change>) {
    forall i :: 0 <= i < |changes| && changes[i].Archived? ==> changes[i].keep >= 1
  }

  function After(changes: seq<Change>): (h: History)
    requires Sensible(changes)
    ensures h.cursor <= |h.items|
    decreases |changes|
  {
    if changes == [] then History([], 0)
    else
      var h := After(changes[..|changes| - 1]);
      var change := Last(changes);
      assert change.Archived? ==> ArchiveEnd(h.items, h.cursor, change.keep) <= |h.items| by {
        if change.Archived? { ArchiveEndInRange(h.items, h.cursor, change.keep); }
      }
      Next(h, change)
  }

  lemma ArchiveEndInRange(items: seq<Message>, cursor: nat, keep: nat)
    requires cursor <= |items| && keep >= 1
    ensures cursor <= ArchiveEnd(items, cursor, keep) <= |items|
  {
    if Archivable(items, cursor, keep) != [] {
      var k := ArchiveStep(items, cursor, keep);
    }
  }

  /** Every run of appends and archives: the cursor is a unit boundary of the
      projection of the whole history, and what is projected behind it is exactly
      the rest of that projection. */
  lemma {:induction false} CursorIsBoundary(changes: seq<Change>) returns (k: nat)
    requires Sensible(changes)
    ensures var h := After(changes);
            && h.Valid()
            && k <= |Units(h.items, 0)|
            && Units(h.items, 0) == Units(h.items, 0)[..k] + Units(h.items, h.cursor)
    decreases |changes|
  {
    if changes != [] {
      var front := changes[..|changes| - 1];
      var _ := CursorIsBoundary(front);
      NextKeepsBoundary(After(front), Last(changes));
    }
    var h := After(changes);
    if h.cursor == 0 {
      k := 0;
    } else {
      k := SuffixProjection(h.items, h.cursor);
    }
  }

  // ---------------------------------------------------------------- request entries

  /** One message of a model request. `Item(i)` is the very message object at index i
      of the history; the other entries are built fresh. */
  datatype Entry =
    | Stable
    | HistoricalAnchors(indices: seq<nat>)
    | TurnContext(index: nat)
    | Item(index: nat)
    | Dynamic

  function UnitMessages(units: seq<ContextUnit>): (r: seq<nat>) {
    if units == [] then [] else units[0].messages + UnitMessages(units[1..])
  }

  lemma {:induction false} UnitMessagesConcat(a: seq<ContextUnit>, b: seq<ContextUnit>)
    ensures UnitMessages(a + b) == UnitMessages(a) + UnitMessages(b)
  {
    if a == [] {
      assert a + b == b;
    } else {
      assert (a + b)[1..] == a[1..] + b;
      UnitMessagesConcat(a[1..], b);
    }
  }

  /** A message, preceded by its turn context when it is a dated user message. */
  function Shown(items: seq<Message>, i: nat): (r: seq<Entry>) {
    if i < |items| && items[i].UserAuthored() && items[i].timestamp.Some? then [TurnContext(i), Item(i)] else [Item(i)]
  }

  function ShownAll(items: seq<Message>, indices: seq<nat>): (r: seq<Entry>) {
    if indices == [] then [] else Shown(items, indices[0]) + ShownAll(items, indices[1..])
  }

  lemma {:induction false} ShownAllConcat(items: seq<Message>, a: seq<nat>, b: seq<nat>)
    ensures ShownAll(items, a + b) == ShownAll(items, a) + ShownAll(items, b)
  {
    if a == [] {
      assert a + b == b;
    } else {
      assert (a + b)[1..] == a[1..] + b;
      ShownAllConcat(items, a[1..], b);
    }
  }

  function ContextEntries(items: seq<Message>, cursor: nat): (r: seq<Entry>)
    requires cursor <= |items|
  {
    ShownAll(items, UnitMessages(Units(items, cursor)))
  }

  // ---------------------------------------------------------------- where messages come from

  ghost predicate Within(indices: seq<nat>, lo: nat, hi: nat) {
    forall k :: 0 <= k < |indices| ==> lo <= indices[k] < hi
  }

  lemma UnitWithin(items: seq<Message>, i: nat)
    requires i < |items|
    ensures Within(UnitAt(items, i).messages, i, UnitAt(items, i).end)
  {
    if CallsTools(items[i]) {
      TrailingExact(items, items[i].toolCalls, i + 1, SpanEnd(items, i + 1));
    }
  }

  lemma {:induction false} PrefixWithin(items: seq<Message>, i: nat, k: nat)
    requires i <= |items| && k < |Units(items, i)|
    ensures Within(UnitMessages(Units(items, i)[..k]), i, Units(items, i)[k].start)
    decreases k
  {
    var units := Units(items, i);
    if k > 0 {
      var next := UnitAt(items, i).end;
      assert units[1..] == Units(items, next);
      UnitWithin(items, i);
      hide UnitAt;
      PrefixWithin(items, next, k - 1);
      assert units[..k][1..] == Units(items, next)[..k - 1];
      assert Units(items, next)[k - 1] == units[k];
      UnitsCover(items, next);
      CoversAt(Units(items, next), next, |items|, k - 1);
    }
  }

  // ---------------------------------------------------------------- the archive boundary

  /** Position behind the first entry that is message `index`; 0 when it is missing. */
  function CutAt(request: seq<Entry>, index: nat): (n: nat)
    ensures n <= |request|
    ensures n > 0 ==> request[n - 1] == Item(index)
    ensures forall j :: 0 <= j < n - 1 ==> request[j] != Item(index)
    ensures n == 0 ==> Item(index) !in request
  {
    if request == [] then 0
    else if request[0] == Item(index) then 1
    else
      var n := CutAt(request[1..], index);
      if n == 0 then 0 else n + 1
  }

  function FirstOf(indices: seq<nat>, x: nat): (p: nat)
    requires x in indices
    ensures p < |indices| && indices[p] == x
    ensures forall j :: 0 <= j < p ==> indices[j] != x
  {
    if indices[0] == x then 0 else 1 + FirstOf(indices[1..], x)
  }

  lemma {:induction false} CutAtFirst(items: seq<Message>, before: seq<Entry>, indices: seq<nat>, after: seq<Entry>,
      x: nat)
    requires x in indices && Item(x) !in before
    ensures var request := before + ShownAll(items, indices) + after;
            var n := CutAt(request, x);
            n > 0 && request[..n] == before + ShownAll(items, indices[..FirstOf(indices, x) + 1])
  {
    hide CutAt, ShownAll, FirstOf, Shown;
    var p := FirstOf(indices, x);
    var mid, hit, rest := ShownAll(items, indices[..p]), Shown(items, x), ShownAll(items, indices[p + 1..]) + after;
    assert indices == (indices[..p] + [x]) + indices[p + 1..];
    assert indices[..p + 1] == indices[..p] + [x];
    ShownAllConcat(items, indices[..p] + [x], indices[p + 1..]);
    ShownAllConcat(items, indices[..p], [x]);
    ShownAllOne(items, x);
    ShownAllAvoids(items, indices[..p], x);
    FirstEntryIs(before, mid, hit, rest, x);
    assert before + ShownAll(items, indices) + after == before + mid + hit + rest;
    assert before + (mid + hit) == before + mid + hit;
  }

  lemma ShownAllOne(items: seq<Message>, x: nat)
    ensures ShownAll(items, [x]) == Shown(items, x)
    ensures Shown(items, x) == [Item(x)] || Shown(items, x) == [TurnContext(x), Item(x)]
  {
    assert [x][1..] == [];
  }

  lemma {:induction false} ShownAllAvoids(items: seq<Message>, indices: seq<nat>, x: nat)
    requires x !in indices
    ensures Item(x) !in ShownAll(items, indices)
  {
    if indices != [] { ShownAllAvoids(items, indices[1..], x); }
  }

  lemma FirstEntryIs(before: seq<Entry>, mid: seq<Entry>, hit: seq<Entry>, rest: seq<Entry>, x: nat)
    requires Item(x) !in before && Item(x) !in mid
    requires hit == [Item(x)] || hit == [TurnContext(x), Item(x)]
    ensures var request := before + mid + hit + rest;
            CutAt(request, x) == |before| + |mid| + |hit| && request[..CutAt(request, x)] == before + mid + hit
  {
    var front := before + mid + hit;
    var request := front + rest;
    assert request[|front| - 1] == Item(x);
    assert forall j :: 0 <= j < |front| - 1 ==> request[j] != Item(x) by {
      forall j | 0 <= j < |front| - 1 ensures request[j] != Item(x) {
        assert request[j] == front[j];
        if j < |before| { assert before[j] in before; }
        else if j < |before| + |mid| { assert mid[j - |before|] in mid; }
      }
    }
  }

  /** The live messages are the archived ones, all before the new cursor, and then
      the retained ones. */
  lemma ArchiveSplits(items: seq<Message>, cursor: nat, keep: nat) returns (retained: seq<nat>)
    requires cursor <= |items| && keep >= 1 && Archivable(items, cursor, keep) != []
    ensures var archived := UnitMessages(Archivable(items, cursor, keep));
            && archived != []
            && UnitMessages(Units(items, cursor)) == archived + retained
            && Within(archived, cursor, ArchiveEnd(items, cursor, keep))
  {
    var units := Units(items, cursor);
    var k := ArchiveStep(items, cursor, keep);
    ArchivedSomething(units[..k]);
    assert units == units[..k] + units[k..];
    UnitMessagesConcat(units[..k], units[k..]);
    PrefixWithin(items, cursor, k);
    retained := UnitMessages(units[k..]);
  }

  /** The part of the archived messages that the compression request holds. */
  function Sent(archived: seq<nat>): (r: seq<nat>)
    requires archived != []
  {
    archived[..FirstOf(archived, Last(archived)) + 1]
  }

  /** Lookup of the archive boundary in a request built from this history never
      fails, and what is sent for compression is everything in front of the live
      units followed by the archived messages up to the first occurrence of the last
      one; no retained message is ever sent. */
  lemma BoundarySlice(items: seq<Message>, cursor: nat, keep: nat, before: seq<Entry>, after: seq<Entry>)
    requires cursor <= |items| && keep >= 1 && Archivable(items, cursor, keep) != []
    requires ItemsBelow(before, cursor)
    ensures var archived := UnitMessages(Archivable(items, cursor, keep));
            && archived != []
            && var request := before + ContextEntries(items, cursor) + after;
               var n := CutAt(request, Last(archived));
            && n > 0
            && request[..n] == before + ShownAll(items, Sent(archived))
            && ItemsBelow(request[..n], ArchiveEnd(items, cursor, keep))
  {
    var end := ArchiveEnd(items, cursor, keep);
    var archived := UnitMessages(Archivable(items, cursor, keep));
    var retained := ArchiveSplits(items, cursor, keep);
    ArchiveEndInRange(items, cursor, keep);
    CutRequest(items, cursor, end, before, archived, retained, after);
  }

  ghost predicate ItemsBelow(entries: seq<Entry>, limit: nat) {
    forall j :: 0 <= j < |entries| && entries[j].Item? ==> entries[j].index < limit
  }

  lemma CutRequest(items: seq<Message>, cursor: nat, end: nat, before: seq<Entry>, archived: seq<nat>,
                   retained: seq<nat>, after: seq<Entry>)
    requires archived != [] && Within(archived, cursor, end) && cursor <= end && ItemsBelow(before, cursor)
    ensures var request := before + ShownAll(items, archived + retained) + after;
            var n := CutAt(request, Last(archived));
            && n > 0
            && request[..n] == before + ShownAll(items, Sent(archived))
            && ItemsBelow(request[..n], end)
  {
    hide CutAt, ShownAll;
    ShownAllConcat(items, archived, retained);
    var rest := ShownAll(items, retained) + after;
    CutAtFirst(items, before, archived, rest, Last(archived));
    assert before + ShownAll(items, archived) + rest == before + ShownAll(items, archived + retained) + after;
    ShownAllBelow(items, Sent(archived), end);
  }

  lemma {:induction false} ArchivedSomething(units: seq<ContextUnit>)
    requires VisibleUnits(units) != []
    ensures UnitMessages(units) != []
  {
    if !units[0].Visible() { ArchivedSomething(units[1..]); }
  }

  lemma {:induction false} ShownAllBelow(items: seq<Message>, indices: seq<nat>, limit: nat)
    requires forall k :: 0 <= k < |indices| ==> indices[k] < limit
    ensures ItemsBelow(ShownAll(items, indices), limit)
  {
    if indices != [] { ShownAllBelow(items, indices[1..], limit); }
  }

  // ---------------------------------------------------------------- is the whole archive sent?

  /** Every archived message is among those sent for compression. */
  ghost predicate SentWhole(archived: seq<nat>)
    requires archived != []
  {
    forall k :: 0 <= k < |archived| ==> archived[k] in Sent(archived)
  }

  /** Only the last non-empty part decides: earlier parts are always sent whole. */
  lemma SentWholeLocal(a: seq<nat>, m: seq<nat>, cut: nat)
    requires m != []
    requires forall k :: 0 <= k < |a| ==> a[k] < cut
    requires forall k :: 0 <= k < |m| ==> m[k] >= cut
    ensures SentWhole(a + m) <==> SentWhole(m)
  {
    var all, q := a + m, FirstOf(m, Last(m));
    assert Last(all) == Last(m);
    var p := FirstOf(all, Last(m));
    assert all[|a| + q] == Last(m);
    assert p == |a| + q;
    assert Sent(all) == a + Sent(m);
    if SentWhole(all) {
      forall k | 0 <= k < |m| ensures m[k] in Sent(m) {
        assert all[|a| + k] == m[k];
      }
    }
    if SentWhole(m) {
      forall k | 0 <= k < |all| ensures all[k] in Sent(all) {
        assert k >= |a| ==> all[k] == m[k - |a|];
        assert k < |a| ==> all[k] == a[k];
      }
    }
  }

  /** The first call that has this id. */
  function FirstNamesake(calls: seq<ToolCall>, id: Id): (c: nat)
    requires exists c :: 0 <= c < |calls| && calls[c].id == id
    ensures c < |calls| && calls[c].id == id
    ensures forall j :: 0 <= j < c ==> calls[j].id != id
  {
    NamesakeFrom(calls, id, 0)
  }

  function NamesakeFrom(calls: seq<ToolCall>, id: Id, i: nat): (c: nat)
    requires exists c :: i <= c < |calls| && calls[c].id == id
    ensures i <= c < |calls| && calls[c].id == id
    ensures forall j :: i <= j < c ==> calls[j].id != id
    decreases |calls| - i
  {
    if calls[i].id == id then i else NamesakeFrom(calls, id, i + 1)
  }

  /** No call id appears for the first time behind the first use of the last one. */
  predicate NoLateIds(calls: seq<ToolCall>) {
    calls == [] ||
    var first := FirstNamesake(calls, Last(calls).id);
    forall c :: 0 <= c < |calls| ==> UsedBy(calls, first, calls[c].id)
  }

  predicate UsedBy(calls: seq<ToolCall>, limit: nat, id: Id)
    requires limit < |calls|
  {
    exists d :: 0 <= d <= limit && calls[d].id == id
  }

  ghost predicate DistinctCallIds(calls: seq<ToolCall>) {
    forall c, d :: 0 <= c < d < |calls| ==> calls[c].id != calls[d].id
  }

  lemma DistinctIdsAreNeverLate(calls: seq<ToolCall>)
    requires DistinctCallIds(calls)
    ensures NoLateIds(calls)
  {
    if calls != [] {
      var first := FirstNamesake(calls, Last(calls).id);
      assert first == |calls| - 1;
      assert forall c :: 0 <= c < |calls| ==> UsedBy(calls, first, calls[c].id);
    }
  }

  /** When the last archived unit can lose messages: it is a tool batch without
      trailing messages. */
  predicate EndsInBatch(items: seq<Message>, i: nat)
    requires i < |items|
  {
    CallsTools(items[i]) && Trailing(items, items[i].toolCalls, i + 1, SpanEnd(items, i + 1)) == []
  }

  lemma NewLastSendsAll(m: seq<nat>)
    requires m != [] && forall k :: 0 <= k < |m| - 1 ==> m[k] != Last(m)
    ensures SentWhole(m)
  {
    assert FirstOf(m, Last(m)) == |m| - 1;
    assert Sent(m) == m;
  }

  /** A trailing message stands behind the call message and all the results. */
  lemma TrailingEndsUnit(items: seq<Message>, i: nat, calls: seq<ToolCall>, hi: nat)
    requires i < hi <= |items| && Complete(items, calls, i + 1, hi)
    requires Trailing(items, calls, i + 1, hi) != []
    ensures SentWhole([i] + Results(items, calls, i + 1, hi) + Trailing(items, calls, i + 1, hi))
  {
    var results, trailing := Results(items, calls, i + 1, hi), Trailing(items, calls, i + 1, hi);
    var last := Last(trailing);
    TrailingExact(items, calls, i + 1, hi);
    assert forall c :: 0 <= c < |results| ==> results[c] != last by {
      hide Trailing;
      forall c | 0 <= c < |results| ensures results[c] != last {
        assert items[results[c]].toolCallId == Some(calls[c].id);
        assert Answers(items[results[c]], calls);
      }
    }
    hide *;
    var m := [i] + results + trailing;
    assert Last(m) == last;
    forall k | 0 <= k < |m| - 1 ensures m[k] != last {
      if k > |results| {
        assert m[k] == trailing[k - 1 - |results|];
      } else if k > 0 {
        assert m[k] == results[k - 1];
      }
    }
    NewLastSendsAll(m);
  }

  lemma UnitSentWhole(items: seq<Message>, i: nat)
    requires i < |items| && UnitAt(items, i).Visible()
    ensures SentWhole(UnitAt(items, i).messages) <==> !EndsInBatch(items, i) || NoLateIds(items[i].toolCalls)
  {
    hide SentWhole, NoLateIds, Trailing, Results;
    var m := UnitAt(items, i).messages;
    if CallsTools(items[i]) {
      var calls, hi := items[i].toolCalls, SpanEnd(items, i + 1);
      var results, trailing := Results(items, calls, i + 1, hi), Trailing(items, calls, i + 1, hi);
      assert m == [i] + results + trailing;
      if trailing == [] {
        assert m == [i] + results;
        BatchResultsFit(items, i, calls, hi);
        BatchSentWhole(i, calls, results);
      } else {
        TrailingEndsUnit(items, i, calls, hi);
      }
    } else {
      assert m == [i];
      NewLastSendsAll(m);
    }
  }

  lemma BatchResultsFit(items: seq<Message>, i: nat, calls: seq<ToolCall>, hi: nat)
    requires i < hi <= |items| && calls != [] && Complete(items, calls, i + 1, hi)
    ensures ResultsFit(i, calls, Results(items, calls, i + 1, hi))
  {
  }

  /** Results of one batch: equal exactly when the calls have the same id. */
  ghost predicate ResultsFit(i: nat, calls: seq<ToolCall>, results: seq<nat>) {
    && calls != [] && |results| == |calls|
    && (forall c :: 0 <= c < |calls| ==> i < results[c])
    && (forall c, d :: 0 <= c < |calls| && 0 <= d < |calls| ==>
        (results[c] == results[d] <==> calls[c].id == calls[d].id))
  }

  lemma SentOfBatch(i: nat, calls: seq<ToolCall>, results: seq<nat>)
    requires ResultsFit(i, calls, results)
    ensures Sent([i] + results) == [i] + results[..FirstNamesake(calls, Last(calls).id) + 1]
  {
    var m, first := [i] + results, FirstNamesake(calls, Last(calls).id);
    assert m[first + 1] == results[first] == results[|calls| - 1] == Last(m);
    var p := FirstOf(m, Last(m));
    assert p > 0 ==> m[p] == results[p - 1];
    assert p == first + 1;
  }

  ghost predicate AllIn(s: seq<nat>, t: seq<nat>) {
    forall c :: 0 <= c < |s| ==> s[c] in t
  }

  lemma BatchSentWhole(i: nat, calls: seq<ToolCall>, results: seq<nat>)
    requires ResultsFit(i, calls, results)
    ensures SentWhole([i] + results) <==> NoLateIds(calls)
  {
    var first := FirstNamesake(calls, Last(calls).id);
    assert |results| == |calls|;
    hide *;
    SentAreUsed(i, calls, results, first);
    SentOfBatch(i, calls, results);
    SentWholeBatch(i, results, first + 1);
  }

  lemma SentAreUsed(i: nat, calls: seq<ToolCall>, results: seq<nat>, first: nat)
    requires ResultsFit(i, calls, results) && first == FirstNamesake(calls, Last(calls).id)
    ensures AllIn(results, [i] + results[..first + 1]) <==> NoLateIds(calls)
  {
    hide UsedBy;
    var sent := [i] + results[..first + 1];
    forall c | 0 <= c < |calls| ensures results[c] in sent <==> UsedBy(calls, first, calls[c].id) {
      EarlierNamesake(i, calls, results, first, c);
    }
  }

  lemma SentWholeBatch(i: nat, results: seq<nat>, n: nat)
    requires n <= |results| && Sent([i] + results) == [i] + results[..n]
    ensures SentWhole([i] + results) <==> AllIn(results, [i] + results[..n])
  {
    hide Sent;
    var m := [i] + results;
    if SentWhole(m) {
      forall c | 0 <= c < |results| ensures results[c] in Sent(m) {
        assert m[c + 1] in Sent(m);
      }
    }
  }

  lemma EarlierNamesake(i: nat, calls: seq<ToolCall>, results: seq<nat>, first: nat, c: nat)
    requires ResultsFit(i, calls, results) && first < |calls| && c < |calls|
    ensures results[c] in [i] + results[..first + 1] <==> UsedBy(calls, first, calls[c].id)
  {
    var sent := results[..first + 1];
    if results[c] in sent {
      var d :| 0 <= d < |sent| && sent[d] == results[c];
      assert calls[d].id == calls[c].id;
    }
    if d :| 0 <= d <= first && calls[d].id == calls[c].id {
      assert sent[d] == results[c];
    }
  }

  /** The last visible archived unit, and everything archived before it. */
  lemma {:induction false} LastVisible(items: seq<Message>, i: nat, k: nat) returns (j: nat)
    requires i <= |items| && k < |Units(items, i)| && VisibleUnits(Units(items, i)[..k]) != []
    ensures j < k && Units(items, i)[j].Visible() && Units(items, i)[j].start < |items|
    ensures Units(items, i)[j] == UnitAt(items, Units(items, i)[j].start)
    ensures UnitMessages(Units(items, i)[..k]) == UnitMessages(Units(items, i)[..j]) + Units(items, i)[j].messages
    decreases k
  {
    var units := Units(items, i);
    assert units[..k] == units[..k - 1] + [units[k - 1]];
    UnitMessagesConcat(units[..k - 1], [units[k - 1]]);
    assert UnitMessages([units[k - 1]]) == units[k - 1].messages + UnitMessages([]);
    if units[k - 1].Visible() {
      j := k - 1;
      UnitsFrom(items, i, j);
      assert units[j..][0] == units[j];
    } else {
      VisibleConcat(units[..k - 1], [units[k - 1]]);
      j := LastVisible(items, i, k - 1);
    }
  }

  lemma {:induction false} VisibleConcat(a: seq<ContextUnit>, b: seq<ContextUnit>)
    ensures VisibleUnits(a + b) == VisibleUnits(a) + VisibleUnits(b)
  {
    VisibleCons(a);
    hide VisibleUnits;
    if a == [] {
      assert a + b == b;
    } else {
      var head := if a[0].Visible() then [a[0]] else [];
      assert (a + b)[0] == a[0] && (a + b)[1..] == a[1..] + b;
      VisibleCons(a + b);
      VisibleConcat(a[1..], b);
      Associative(head, VisibleUnits(a[1..]), VisibleUnits(b));
    }
  }

  /** The compression request holds every archived message exactly when the last
      visible archived unit is not a trailing-free batch with a late call id. */
  lemma ArchiveSentWhole(items: seq<Message>, cursor: nat, keep: nat) returns (last: nat)
    requires cursor <= |items| && keep >= 1 && Archivable(items, cursor, keep) != []
    ensures cursor <= last < ArchiveEnd(items, cursor, keep) <= |items|
    ensures UnitAt(items, last).Visible() && UnitAt(items, last) in Archivable(items, cursor, keep)
    ensures var archived := UnitMessages(Archivable(items, cursor, keep));
            && archived != []
            && (SentWhole(archived) <==> !EndsInBatch(items, last) || NoLateIds(items[last].toolCalls))
  {
    var units := Units(items, cursor);
    var k := ArchiveStep(items, cursor, keep);
    var j := LastVisible(items, cursor, k);
    last := units[j].start;
    assert units[j] == units[..k][j];
    UnitsCover(items, cursor);
    CoversAt(units, cursor, |items|, j);
    PrefixWithin(items, cursor, j);
    PrefixWithin(items, cursor, k);
    UnitWithin(items, last);
    UnitSentWhole(items, last);
    SentWholeLocal(UnitMessages(units[..j]), units[j].messages, last);
    assert last in units[j].messages;
    assert last in UnitMessages(units[..k]);
  }

  /** One batch that answers two of its calls with the same id: the last archived
      message is found too early and one result is left out of the compression. */
  lemma LateIdLosesResult()
    ensures var call := (id: Id) => ToolCall(id, "read", "");
            var item := (role: Role, id: Option<Id>, calls: seq<ToolCall>) =>
              Message(role, "x", None, calls, id, Conversation);
            var items := [item(AssistantRole, None, [call("a"), call("b"), call("a")]),
                          item(ToolRole, Some("a"), []), item(ToolRole, Some("b"), []), item(UserRole, None, [])];
            && UnitMessages(Archivable(items, 0, 1)) == [0, 1, 2, 1]
            && Sent([0, 1, 2, 1]) == [0, 1]
  {
    var calls := [ToolCall("a", "read", ""), ToolCall("b", "read", ""), ToolCall("a", "read", "")];
    var items := [Message(AssistantRole, "x", None, calls, None, Conversation),
                  Message(ToolRole, "x", None, [], Some("a"), Conversation),
                  Message(ToolRole, "x", None, [], Some("b"), Conversation),
                  Message(UserRole, "x", None, [], None, Conversation)];
    var batch, user := ContextUnit(0, 3, [0, 1, 2, 1]), ContextUnit(3, 4, [3]);
    assert UnitAt(items, 0) == batch by {
      assert SpanEnd(items, 3) == 3;
      assert SpanEnd(items, 2) == 3;
      assert SpanEnd(items, 1) == 3;
      assert ResultOf(items, 1, 2, "a") == Some(1);
      assert ResultOf(items, 1, 3, "a") == Some(1);
      assert ResultOf(items, 1, 3, "b") == Some(2);
      assert Results(items, calls, 1, 3) == [1, 2, 1];
      assert Trailing(items, calls, 1, 1) == [];
      assert Trailing(items, calls, 1, 2) == [];
      assert Trailing(items, calls, 1, 3) == [];
    }
    assert UnitAt(items, 3) == user;
    hide UnitAt;
    assert Units(items, 3) == [user];
    assert Units(items, 0) == [batch, user];
    hide Units;
    assert VisibleUnits([user]) == [user];
    assert VisibleUnits([batch, user]) == [batch, user];
    assert UnitsUpTo([user], 3) == [];
    assert UnitsUpTo([batch, user], 3) == [batch];
    LateIdSent();
  }

  lemma LateIdSent()
    ensures Sent([0, 1, 2, 1]) == [0, 1]
  {
    var archived: seq<nat> := [0, 1, 2, 1];
    assert archived[1..] == [1, 2, 1];
    assert FirstOf([1, 2, 1], 1) == 0;
    assert FirstOf(archived, 1) == 1;
    assert archived[..2] == [0, 1];
  }

  // ---------------------------------------------------------------- user anchors

  /** The turns in order, up to the active one. */
  function TurnWindow(keys: seq<Id>, active: Option<Id>): (r: seq<Id>)
    requires active.Some? ==> active.value in keys
    ensures r <= keys
    ensures active.None? ==> r == keys
    ensures active.Some? ==> r != [] && Last(r) == active.value && active.value !in r[..|r| - 1]
  {
    if active.None? then keys
    else if keys[0] == active.value then [keys[0]]
    else
      assert keys == [keys[0]] + keys[1..];
      [keys[0]] + TurnWindow(keys[1..], active)
  }

  function OfTurn(anchors: seq<Session.UserAnchor>, turnId: Id): (r: seq<Session.UserAnchor>) {
    Filter(anchors, (a: Session.UserAnchor) => a.turnId == turnId)
  }

  function OfTurns(anchors: seq<Session.UserAnchor>, turnIds: seq<Id>): (r: seq<Session.UserAnchor>) {
    if turnIds == [] then [] else OfTurn(anchors, turnIds[0]) + OfTurns(anchors, turnIds[1..])
  }

  /** Number of turns in front of the two that are always kept. */
  function Optional(window: seq<Id>): (n: nat)
    ensures n <= |window|
  {
    if |window| <= 2 then 0 else |window| - 2
  }

  /** The turns a selection can come from begin at `j`: it stops there because the whole
      turn in front would not fit the token budget, or because there is none. */
  predicate Selects(anchors: seq<Session.UserAnchor>, window: seq<Id>, tokens: seq<Session.UserAnchor> -> nat,
                    budget: nat, j: nat)
  {
    && j <= Optional(window)
    && (j < Optional(window) ==> tokens(OfTurns(anchors, window[j..])) <= budget)
    && (j > 0 ==> tokens(OfTurns(anchors, window[j - 1..])) > budget)
  }

  /** Two whole turns up to the active one, then earlier turns one by one while the whole
      candidate stays within the token budget. An active turn that is not one of the turns
      raises. Neither the cursor nor the items are looked at. */
  method SelectUserAnchors(anchors: seq<Session.UserAnchor>, turnIds: seq<Id>, active: Option<Id>,
                           tokens: seq<Session.UserAnchor> -> nat, budget: nat)
    returns (selected: Result<seq<Session.UserAnchor>>, j: nat)
    ensures selected.Err? <==> active.Some? && active.value !in turnIds
    ensures selected.Ok? ==>
              && Selects(anchors, TurnWindow(turnIds, active), tokens, budget, j)
              && selected.value == OfTurns(anchors, TurnWindow(turnIds, active)[j..])
  {
    if active.Some? && active.value !in turnIds {
      return Err, 0;
    }
    var window := TurnWindow(turnIds, active);
    j := Optional(window);
    var kept := OfTurns(anchors, window[j..]);
    while j > 0
      invariant 0 <= j <= Optional(window)
      invariant kept == OfTurns(anchors, window[j..])
      invariant j < Optional(window) ==> tokens(kept) <= budget
    {
      var candidate := OfTurn(anchors, window[j - 1]) + kept;
      OfTurnsCons(anchors, window, j - 1);
      if tokens(candidate) > budget {
        break;
      }
      kept := candidate;
      j := j - 1;
    }
    selected := Ok(kept);
  }

  lemma OfTurnsCons(anchors: seq<Session.UserAnchor>, window: seq<Id>, i: nat)
    requires i < |window|
    ensures OfTurns(anchors, window[i..]) == OfTurn(anchors, window[i]) + OfTurns(anchors, window[i + 1..])
  {
    assert window[i..][0] == window[i] && window[i..][1..] == window[i + 1..];
  }

  /** Of anchors in item order, exactly those of the turns are selected: turn by turn, and each
      turn in item order. At least the last two turns are among those a selection comes from. */
  lemma {:induction false} SelectedAre(anchors: seq<Session.UserAnchor>, turnIds: seq<Id>)
    requires forall i, j :: 0 <= i < j < |anchors| ==> anchors[i].itemIndex < anchors[j].itemIndex
    ensures forall a :: a in OfTurns(anchors, turnIds) <==> a in anchors && a.turnId in turnIds
    ensures Distinct(turnIds) ==> TurnByTurn(OfTurns(anchors, turnIds), turnIds)
  {
    if turnIds != [] {
      var t, rest := turnIds[0], turnIds[1..];
      SelectedAre(anchors, rest);
      OfTurnIs(anchors, t);
      assert turnIds == [t] + rest;
      hide OfTurn;
      if Distinct(turnIds) {
        assert Distinct(rest) by { assert forall i :: 0 <= i < |rest| ==> rest[i] == turnIds[i + 1]; }
        TurnFirst(OfTurn(anchors, t), OfTurns(anchors, rest), turnIds);
      }
    }
  }

  /** Of two selected anchors the first is of an earlier turn, or in front in the same turn. */
  ghost predicate TurnByTurn(selected: seq<Session.UserAnchor>, turnIds: seq<Id>) {
    forall p, q :: 0 <= p < q < |selected| ==> Comes(turnIds, selected[p], selected[q])
  }

  ghost predicate Comes(turnIds: seq<Id>, a: Session.UserAnchor, b: Session.UserAnchor) {
    || (a.turnId == b.turnId && a.itemIndex < b.itemIndex)
    || exists i, j :: 0 <= i < j < |turnIds| && turnIds[i] == a.turnId && turnIds[j] == b.turnId
  }

  lemma {:induction false} OfTurnIs(anchors: seq<Session.UserAnchor>, t: Id)
    requires forall i, j :: 0 <= i < j < |anchors| ==> anchors[i].itemIndex < anchors[j].itemIndex
    ensures forall a :: a in OfTurn(anchors, t) <==> a in anchors && a.turnId == t
    ensures forall i, j :: 0 <= i < j < |OfTurn(anchors, t)| ==>
              OfTurn(anchors, t)[i].itemIndex < OfTurn(anchors, t)[j].itemIndex
  {
    if anchors != [] {
      var rest := anchors[1..];
      assert forall i :: 0 <= i < |rest| ==> rest[i] == anchors[i + 1];
      OfTurnIs(rest, t);
      assert anchors == [anchors[0]] + rest;
      var r := OfTurn(rest, t);
      assert OfTurn(anchors, t) == if anchors[0].turnId == t then [anchors[0]] + r else r;
      hide OfTurn, Filter;
      FirstIsBefore(anchors, r);
    }
  }

  lemma FirstIsBefore(anchors: seq<Session.UserAnchor>, r: seq<Session.UserAnchor>)
    requires anchors != [] && forall i :: 0 < i < |anchors| ==> anchors[0].itemIndex < anchors[i].itemIndex
    requires forall a :: a in r ==> a in anchors[1..]
    ensures forall j :: 0 <= j < |r| ==> anchors[0].itemIndex < r[j].itemIndex
  {
    forall j | 0 <= j < |r| ensures anchors[0].itemIndex < r[j].itemIndex {
      assert r[j] in r && r[j] in anchors[1..];
    }
  }

  lemma TurnFirst(first: seq<Session.UserAnchor>, more: seq<Session.UserAnchor>, turnIds: seq<Id>)
    requires turnIds != [] && TurnByTurn(more, turnIds[1..])
    requires forall a :: a in first ==> a.turnId == turnIds[0]
    requires forall a :: a in more ==> a.turnId in turnIds[1..]
    requires forall i, j :: 0 <= i < j < |first| ==> first[i].itemIndex < first[j].itemIndex
    ensures TurnByTurn(first + more, turnIds)
  {
    var all := first + more;
    forall p, q | 0 <= p < q < |all| ensures Comes(turnIds, all[p], all[q]) {
      if q < |first| {
        assert first[p] in first && first[q] in first;
      } else {
        assert more[q - |first|] in more;
        if p < |first| {
          assert first[p] in first;
          var j :| 0 <= j < |turnIds[1..]| && turnIds[1..][j] == all[q].turnId;
          assert turnIds[0] == all[p].turnId && turnIds[j + 1] == all[q].turnId;
        } else {
          LaterComes(turnIds, more[p - |first|], more[q - |first|]);
        }
      }
    }
  }

  lemma LaterComes(turnIds: seq<Id>, a: Session.UserAnchor, b: Session.UserAnchor)
    requires turnIds != [] && Comes(turnIds[1..], a, b)
    ensures Comes(turnIds, a, b)
  {
    if exists i, j :: 0 <= i < j < |turnIds[1..]| && turnIds[1..][i] == a.turnId && turnIds[1..][j] == b.turnId {
      var i, j :| 0 <= i < j < |turnIds[1..]| && turnIds[1..][i] == a.turnId && turnIds[1..][j] == b.turnId;
      assert turnIds[i + 1] == a.turnId && turnIds[j + 1] == b.turnId;
    }
  }

  /** What the source demands of the session it reads: anchors point at their own
      user-authored messages in item order. Replayed sessions satisfy it. */
  ghost predicate Anchored(items: seq<Message>, anchors: seq<Session.UserAnchor>) {
    && (forall k :: 0 <= k < |anchors| ==> AnchorFits(items, anchors[k]))
    && (forall i, j :: 0 <= i < j < |anchors| ==> anchors[i].itemIndex < anchors[j].itemIndex)
  }

  ghost predicate AnchorFits(items: seq<Message>, a: Session.UserAnchor) {
    a.itemIndex < |items| && items[a.itemIndex].UserAuthored() && items[a.itemIndex].content == a.content
  }

  lemma ReplayedIsAnchored(preset: string, events: seq<Session.Event>)
    ensures var s := Session.Fold(Session.Initial(preset), events); Anchored(s.items, s.anchors)
  {
    Session.AnchorsIndexMessageEvents(preset, events);
    var s := Session.Fold(Session.Initial(preset), events);
    var ms := Session.MessageEvents(events);
    forall k | 0 <= k < |s.anchors| ensures AnchorFits(s.items, s.anchors[k]) {
      assert Session.AnchorPointsAt(s.anchors[k], ms);
    }
  }

  function Indices(anchors: seq<Session.UserAnchor>): (r: seq<nat>) {
    seq(|anchors|, k requires 0 <= k < |anchors| => anchors[k].itemIndex)
  }

  /** Archived selected anchors: other turns as one rendered message (an anchor
      without content is skipped), the current turn as its original messages. */
  function Historical(archived: seq<Session.UserAnchor>, active: Option<Id>): (r: seq<Entry>) {
    var others := Filter(archived, (a: Session.UserAnchor) => active != Some(a.turnId));
    if others == [] then []
    else [HistoricalAnchors(Indices(Filter(others, (a: Session.UserAnchor) => a.content != "")))]
  }

  function Pinned(items: seq<Message>, archived: seq<Session.UserAnchor>, active: Option<Id>): (r: seq<Entry>) {
    ShownAll(items, Indices(Filter(archived, (a: Session.UserAnchor) => active == Some(a.turnId))))
  }

  function Request(items: seq<Message>, cursor: nat, selected: seq<Session.UserAnchor>, active: Option<Id>,
                   stable: bool, dynamic: bool): (r: seq<Entry>)
    requires cursor <= |items|
  {
    var archived := Filter(selected, (a: Session.UserAnchor) => a.itemIndex < cursor);
    (if stable then [Stable] else []) + Historical(archived, active) + Pinned(items, archived, active)
    + ContextEntries(items, cursor) + (if dynamic then [Dynamic] else [])
  }

  /** Entries of a request in front of the live units. */
  function Preamble(items: seq<Message>, cursor: nat, selected: seq<Session.UserAnchor>, active: Option<Id>,
                    stable: bool): (r: seq<Entry>)
  {
    var archived := Filter(selected, (a: Session.UserAnchor) => a.itemIndex < cursor);
    (if stable then [Stable] else []) + Historical(archived, active) + Pinned(items, archived, active)
  }

  /** A request fresh from the builder always contains the archive boundary, and the
      slice sent for compression is its preamble and the archived messages. */
  lemma FreshRequestBoundary(items: seq<Message>, cursor: nat, keep: nat, selected: seq<Session.UserAnchor>,
                             active: Option<Id>, stable: bool, dynamic: bool)
    requires cursor <= |items| && keep >= 1 && Archivable(items, cursor, keep) != []
    ensures var archived := UnitMessages(Archivable(items, cursor, keep));
            && archived != []
            && var request := Request(items, cursor, selected, active, stable, dynamic);
               var n := CutAt(request, Last(archived));
            && n > 0
            && request[..n] == Preamble(items, cursor, selected, active, stable) + ShownAll(items, Sent(archived))
            && ItemsBelow(request[..n], ArchiveEnd(items, cursor, keep))
  {
    hide Archivable, ArchiveEnd, CutAt, ContextEntries, ShownAll, UnitMessages;
    PreambleBelow(items, cursor, selected, active, stable);
    var preamble := Preamble(items, cursor, selected, active, stable);
    BoundarySlice(items, cursor, keep, preamble, if dynamic then [Dynamic] else []);
  }

  // ---------------------------------------------------------------- the archive operation

  const ArchiveRetryCount: nat := 5

  /** How one attempt to compress ends: the request is too large to be sent, the call
      raises, its answer is not a checkpoint, or it is one. */
  datatype Attempt =
    | TooLarge
    | Raises(usage: Option<Session.Usage>)
    | Invalid(usage: Option<Session.Usage>)
    | Gives(usage: Option<Session.Usage>, summary: string)

  /** The first attempt from `k` on that is not merely invalid. */
  function Decisive(attempts: nat -> Attempt, k: nat): (n: nat)
    requires k <= ArchiveRetryCount + 1
    ensures k <= n <= ArchiveRetryCount + 1
    ensures forall i :: k <= i < n ==> attempts(i).Invalid?
    ensures n <= ArchiveRetryCount ==> !attempts(n).Invalid?
    decreases ArchiveRetryCount + 1 - k
  {
    if k <= ArchiveRetryCount && attempts(k).Invalid? then Decisive(attempts, k + 1) else k
  }

  /** Everything of a session that neither an attempt nor its failure may touch. */
  predicate SameBut(a: Session.State, b: Session.State) {
    a == b.(archivedSummary := a.archivedSummary, archivedCursor := a.archivedCursor, compressions := a.compressions,
            cacheUsage := a.cacheUsage, tokenAnchor := a.tokenAnchor)
  }

  predicate NotArchived(a: Session.State, b: Session.State) {
    SameBut(a, b) && a.archivedSummary == b.archivedSummary && a.archivedCursor == b.archivedCursor
    && a.compressions == b.compressions && a.tokenAnchor == b.tokenAnchor
  }

  function UsageOf(attempt: Attempt): (usage: Option<Session.Usage>) {
    match attempt
    case TooLarge => None
    case Raises(usage) => usage
    case Invalid(usage) => usage
    case Gives(usage, _) => usage
  }

  /** Behind `before` stand the first `n` calls, each with its own usage. */
  ghost predicate CallsRecorded(attempts: nat -> Attempt, before: seq<Session.Event>, now: seq<Session.Event>, n: nat) {
    && |now| >= |before| + n && now[..|before|] == before
    && forall i :: 0 <= i < n ==> now[|before| + i].body == Session.CompressionCompleted(UsageOf(attempts(i)))
  }

  /** Compress and archive, given a request. Every call is recorded, in order. The cursor moves
      to the end of the archived units exactly when the request shows the boundary and one of
      six attempts gives a checkpoint before any raises; otherwise the archive is as it was. */
  method Archive(live: Session.LiveSession, request: seq<Entry>, keep: nat, attempts: nat -> Attempt,
                 stamps: Session.Stamps) returns (cursor: Result<nat>)
    requires live.Valid() && keep >= 1
    modifies live, live.file
    ensures live.Valid() && live.currentTurn == old(live.currentTurn) && SameBut(live.View(), old(live.View()))
    ensures cursor.Ok? ==> cursor.value == live.archivedCursor
    ensures var units, n := Archivable(old(live.items), old(live.archivedCursor), keep), Decisive(attempts, 0);
            if units == [] then cursor.Ok? && NotArchived(live.View(), old(live.View()))
            else
              && UnitMessages(units) != []
              && (cursor.Ok? <==> CutAt(request, Last(UnitMessages(units))) > 0
                                  && n <= ArchiveRetryCount && attempts(n).Gives?)
              && (cursor.Ok? ==>
                    && live.archivedCursor == ArchiveEnd(old(live.items), old(live.archivedCursor), keep)
                    && live.archivedSummary == Some(attempts(n).summary)
                    && live.compressions == old(live.compressions) + 1)
              && (cursor.Err? ==> NotArchived(live.View(), old(live.View())))
    ensures var units, n := Archivable(old(live.items), old(live.archivedCursor), keep), Decisive(attempts, 0);
            var calls :=
              if units == [] || CutAt(request, Last(UnitMessages(units))) == 0 then 0 else CallsMade(attempts, n);
            && CallsRecorded(attempts, old(live.journal), live.journal, calls)
            && |live.journal| == |old(live.journal)| + calls + if cursor.Ok? && units != [] then 1 else 0
  {
    assert live.archivedCursor <= |live.items|;
    hide Archivable, ArchiveEnd, CutAt, UnitMessages, Session.LiveSession.Valid, CallsRecorded, CallsMade, Decisive;
    var units := Archivable(live.items, live.archivedCursor, keep);
    if units == [] {
      return Ok(live.archivedCursor);
    }
    ArchivedShows(live.items, live.archivedCursor, keep);
    ArchiveEndInRange(live.items, live.archivedCursor, keep);
    var end := ArchiveEnd(live.items, live.archivedCursor, keep);
    if CutAt(request, Last(UnitMessages(units))) == 0 {
      return Err;
    }
    var n := Compress(live, attempts, stamps);
    ghost var mid := live.journal;
    NothingYet(attempts, mid, live.View());
    if n > ArchiveRetryCount || !attempts(n).Gives? {
      return Err;
    }
    live.SetArchivedSummary(attempts(n).summary, end, stamps(n + 1));
    CallsStay(attempts, old(live.journal), mid, live.journal, CallsMade(attempts, n));
    return Ok(live.archivedCursor);
  }

  /** How many calls are made when attempt `n` is the decisive one. */
  function CallsMade(attempts: nat -> Attempt, n: nat): (calls: nat) {
    if n > ArchiveRetryCount || attempts(n).TooLarge? then n else n + 1
  }

  /** The attempts up to the decisive one. */
  method Compress(live: Session.LiveSession, attempts: nat -> Attempt, stamps: Session.Stamps) returns (n: nat)
    requires live.Valid()
    modifies live, live.file
    ensures live.Valid() && live.currentTurn == old(live.currentTurn) && NotArchived(live.View(), old(live.View()))
    ensures n == Decisive(attempts, 0)
    ensures CallsRecorded(attempts, old(live.journal), live.journal, CallsMade(attempts, n))
    ensures |live.journal| == |old(live.journal)| + CallsMade(attempts, n)
  {
    hide Session.LiveSession.Valid, NotArchived, CallsRecorded, Decisive, UsageOf, CallsMade;
    n := 0;
    NothingYet(attempts, live.journal, live.View());
    while n <= ArchiveRetryCount
      invariant n <= ArchiveRetryCount + 1 && Decisive(attempts, 0) == Decisive(attempts, n)
      invariant live.Valid() && live.currentTurn == old(live.currentTurn)
      invariant NotArchived(live.View(), old(live.View()))
      invariant CallsRecorded(attempts, old(live.journal), live.journal, n)
      invariant |live.journal| == |old(live.journal)| + n
    {
      DecisiveHere(attempts, n);
      ghost var before, state := live.journal, live.View();
      match attempts(n) {
        case TooLarge =>
          return;
        case Raises(usage) =>
          RecordCall(live, usage, stamps(n));
          OneMoreCall(attempts, old(live.journal), before, live.journal, n);
          StillNotArchived(old(live.View()), state, live.View());
          return;
        case Invalid(usage) =>
          RecordCall(live, usage, stamps(n));
          OneMoreCall(attempts, old(live.journal), before, live.journal, n);
          StillNotArchived(old(live.View()), state, live.View());
          n := n + 1;
        case Gives(usage, _) =>
          RecordCall(live, usage, stamps(n));
          OneMoreCall(attempts, old(live.journal), before, live.journal, n);
          StillNotArchived(old(live.View()), state, live.View());
          return;
      }
    }
    DecisiveHere(attempts, n);
  }

  lemma NothingYet(attempts: nat -> Attempt, journal: seq<Session.Event>, s: Session.State)
    ensures CallsRecorded(attempts, journal, journal, 0) && NotArchived(s, s)
  {
  }

  lemma DecisiveHere(attempts: nat -> Attempt, n: nat)
    requires n <= ArchiveRetryCount + 1
    ensures n > ArchiveRetryCount || !attempts(n).Invalid? ==> Decisive(attempts, n) == n
    ensures n <= ArchiveRetryCount && attempts(n).Invalid? ==> Decisive(attempts, n) == Decisive(attempts, n + 1)
    ensures CallsMade(attempts, n) == if n > ArchiveRetryCount || attempts(n).TooLarge? then n else n + 1
  {
  }

  lemma OneMoreCall(attempts: nat -> Attempt, before: seq<Session.Event>, mid: seq<Session.Event>,
                    now: seq<Session.Event>, n: nat)
    requires CallsRecorded(attempts, before, mid, n) && |mid| == |before| + n
    requires |now| == |mid| + 1 && now[..|mid|] == mid
    requires !attempts(n).TooLarge? && Last(now).body == Session.CompressionCompleted(attempts(n).usage)
    ensures CallsRecorded(attempts, before, now, n + 1)
  {
    assert now[..|before|] == mid[..|before|];
    assert forall i :: 0 <= i < |mid| ==> now[i] == mid[i];
  }

  lemma CallsStay(attempts: nat -> Attempt, before: seq<Session.Event>, mid: seq<Session.Event>,
                  now: seq<Session.Event>, n: nat)
    requires CallsRecorded(attempts, before, mid, n) && mid <= now
    ensures CallsRecorded(attempts, before, now, n)
  {
  }

  lemma StillNotArchived(a: Session.State, b: Session.State, c: Session.State)
    requires NotArchived(b, a) && NotArchived(c, b)
    ensures NotArchived(c, a)
  {
  }

  /** Every call that was made is recorded with its usage, whatever it gave. */
  method RecordCall(live: Session.LiveSession, usage: Option<Session.Usage>, stamp: (Id, Time))
    requires live.Valid()
    modifies live, live.file
    ensures live.Valid() && live.currentTurn == old(live.currentTurn) && NotArchived(live.View(), old(live.View()))
    ensures live.cacheUsage == Session.AddUsage(old(live.cacheUsage), usage)
    ensures |live.journal| == |old(live.journal)| + 1 && live.journal[..|old(live.journal)|] == old(live.journal)
    ensures Last(live.journal).body == Session.CompressionCompleted(usage)
  {
    hide Session.LiveSession.Valid;
    var e := live.Emit(live.currentTurn, Session.CompressionCompleted(usage), None, stamp);
  }

  lemma ArchivedShows(items: seq<Message>, cursor: nat, keep: nat)
    requires cursor <= |items| && keep >= 1 && Archivable(items, cursor, keep) != []
    ensures UnitMessages(Archivable(items, cursor, keep)) != []
  {
    var k := ArchiveStep(items, cursor, keep);
    ArchivedSomething(Units(items, cursor)[..k]);
  }

  lemma PreambleBelow(items: seq<Message>, cursor: nat, selected: seq<Session.UserAnchor>, active: Option<Id>,
      stable: bool)
    ensures ItemsBelow(Preamble(items, cursor, selected, active, stable), cursor)
  {
    var archived := Filter(selected, (a: Session.UserAnchor) => a.itemIndex < cursor);
    var current := Filter(archived, (a: Session.UserAnchor) => active == Some(a.turnId));
    assert forall k :: 0 <= k < |current| ==> current[k].itemIndex < cursor by {
      hide Filter;
      forall k | 0 <= k < |current| ensures current[k].itemIndex < cursor {
        assert current[k] in archived;
      }
    }
    hide Filter, ShownAll;
    ShownAllBelow(items, Indices(current), cursor);
  }

  // ---------------------------------------------------------------- the layout of a request

  /** The history indices of the messages a request shows, in order. */
  function ItemsIn(entries: seq<Entry>): (r: seq<nat>) {
    if entries == [] then []
    else (if entries[0].Item? then [entries[0].index] else []) + ItemsIn(entries[1..])
  }

  lemma {:induction false} ItemsInConcat(a: seq<Entry>, b: seq<Entry>)
    ensures ItemsIn(a + b) == ItemsIn(a) + ItemsIn(b)
  {
    if a == [] {
      assert a + b == b;
    } else {
      assert (a + b)[1..] == a[1..] + b && (a + b)[0] == a[0];
      ItemsInConcat(a[1..], b);
    }
  }

  ghost predicate Dated(items: seq<Message>, i: nat) {
    && i < |items| && items[i].role == UserRole && items[i].origin in {Conversation, UserInteraction}
    && items[i].timestamp.Some?
  }

  /** A dated message that the user wrote has its turn context right in front of it, and
      there is no other turn context. */
  ghost predicate ContextsFit(items: seq<Message>, entries: seq<Entry>) {
    forall p :: 0 <= p < |entries| ==> FitsAt(items, entries, p)
  }

  ghost predicate FitsAt(items: seq<Message>, entries: seq<Entry>, p: nat)
    requires p < |entries|
  {
    match entries[p]
    case Item(i) => Dated(items, i) <==> p > 0 && entries[p - 1] == TurnContext(i)
    case TurnContext(i) => p + 1 < |entries| && entries[p + 1] == Item(i)
    case _ => true
  }

  /** What is live is shown whole and in order, each dated user message behind its turn
      context. */
  lemma ContextInOrder(items: seq<Message>, cursor: nat)
    requires cursor <= |items|
    ensures ItemsIn(ContextEntries(items, cursor)) == UnitMessages(Units(items, cursor))
    ensures ContextsFit(items, ContextEntries(items, cursor))
  {
    ShownInOrder(items, UnitMessages(Units(items, cursor)));
  }

  lemma {:induction false} ShownInOrder(items: seq<Message>, indices: seq<nat>)
    ensures ItemsIn(ShownAll(items, indices)) == indices
    ensures ContextsFit(items, ShownAll(items, indices))
    ensures forall p :: 0 <= p < |ShownAll(items, indices)| ==>
              ShownAll(items, indices)[p].Item? || ShownAll(items, indices)[p].TurnContext?
    ensures indices != [] ==> ShownAll(items, indices) != []
  {
    if indices != [] {
      var i, rest := indices[0], ShownAll(items, indices[1..]);
      ShownInOrder(items, indices[1..]);
      ShownHead(items, i);
      assert ShownAll(items, indices) == Shown(items, i) + rest;
      ItemsInConcat(Shown(items, i), rest);
      hide Shown, ShownAll, ItemsIn;
      FitConcat(items, Shown(items, i), rest);
    }
  }

  lemma ShownHead(items: seq<Message>, i: nat)
    ensures ItemsIn(Shown(items, i)) == [i] && ContextsFit(items, Shown(items, i))
    ensures Shown(items, i) != [] && Last(Shown(items, i)) == Item(i)
    ensures forall p :: 0 <= p < |Shown(items, i)| ==> Shown(items, i)[p].Item? || Shown(items, i)[p].TurnContext?
  {
    assert [Item(i)][1..] == [] && [TurnContext(i), Item(i)][1..] == [Item(i)];
    assert ItemsIn([Item(i)]) == [i];
    hide ItemsIn;
    var shown := Shown(items, i);
    assert FitsAt(items, shown, 0) && FitsAt(items, shown, |shown| - 1);
  }

  lemma FitConcat(items: seq<Message>, a: seq<Entry>, b: seq<Entry>)
    requires ContextsFit(items, a) && ContextsFit(items, b) && a != [] && Last(a).Item?
    ensures ContextsFit(items, a + b)
  {
    var all := a + b;
    hide Dated;
    forall p | 0 <= p < |all| ensures FitsAt(items, all, p) {
      if p < |a| {
        assert FitsAt(items, a, p);
      } else {
        assert FitsAt(items, b, p - |a|);
        assert p == |a| ==> all[p - 1] == Last(a);
        assert p > |a| ==> all[p - 1] == b[p - |a| - 1];
      }
    }
  }

  /** The stable part comes first and the dynamic part last, exactly when there are such;
      the live messages stand together in front of the dynamic part. */
  lemma RequestLayout(items: seq<Message>, cursor: nat, selected: seq<Session.UserAnchor>, active: Option<Id>,
                      stable: bool, dynamic: bool)
    requires cursor <= |items|
    ensures var live := ContextEntries(items, cursor);
            var request := Request(items, cursor, selected, active, stable, dynamic);
            && (stable <==> request != [] && request[0] == Stable)
            && (dynamic <==> request != [] && Last(request) == Dynamic)
            && (forall p :: 0 < p < |request| ==> request[p] != Stable)
            && (forall p :: 0 <= p < |request| - 1 ==> request[p] != Dynamic)
            && |request| >= |live| + (if dynamic then 1 else 0)
            && (var n := |request| - (if dynamic then 1 else 0); request[n - |live|..n] == live)
  {
    var archived := Filter(selected, (a: Session.UserAnchor) => a.itemIndex < cursor);
    var live := ContextEntries(items, cursor);
    var head := if stable then [Stable] else [];
    var tail := if dynamic then [Dynamic] else [];
    var historical, pinned := Historical(archived, active), Pinned(items, archived, active);
    LiveShown(items, cursor);
    AnchorsShown(items, archived, active);
    hide ContextEntries, Historical, Pinned;
    assert Request(items, cursor, selected, active, stable, dynamic) == head + historical + pinned + live + tail;
    hide *;
    Associative(head, historical, pinned);
    Layout(head, historical + pinned, live, tail, stable, dynamic);
  }

  /** The messages a request shows are the archived ones that the selected anchors of the
      active turn point at, in front of the live ones, and all of them are dated alike. */
  lemma RequestItems(items: seq<Message>, cursor: nat, selected: seq<Session.UserAnchor>, active: Option<Id>,
                     stable: bool, dynamic: bool)
    requires cursor <= |items|
    ensures var request := Request(items, cursor, selected, active, stable, dynamic);
            var archived := Filter(selected, (a: Session.UserAnchor) => a.itemIndex < cursor);
            var current := Filter(archived, (a: Session.UserAnchor) => active == Some(a.turnId));
            && ItemsIn(request) == Indices(current) + UnitMessages(Units(items, cursor))
            && ContextsFit(items, request)
  {
    var archived := Filter(selected, (a: Session.UserAnchor) => a.itemIndex < cursor);
    var current := Filter(archived, (a: Session.UserAnchor) => active == Some(a.turnId));
    var front := (if stable then [Stable] else []) + Historical(archived, active);
    var live := UnitMessages(Units(items, cursor));
    var tail := if dynamic then [Dynamic] else [];
    assert NoMessages(front) && NoMessages(tail);
    assert Pinned(items, archived, active) == ShownAll(items, Indices(current));
    assert Request(items, cursor, selected, active, stable, dynamic) ==
           front + ShownAll(items, Indices(current)) + ShownAll(items, live) + tail;
    hide *;
    ShownAllConcat(items, Indices(current), live);
    ShownInOrder(items, Indices(current) + live);
    Associative(front, ShownAll(items, Indices(current)), ShownAll(items, live));
    Framed(items, front, ShownAll(items, Indices(current) + live), tail);
  }

  /** The archived selected anchors of other turns that have content come in one message, in
      front of all others, which is there exactly when there are such anchors at all. */
  lemma RequestAnchors(items: seq<Message>, cursor: nat, selected: seq<Session.UserAnchor>, active: Option<Id>,
                       stable: bool, dynamic: bool)
    requires cursor <= |items|
    ensures var request := Request(items, cursor, selected, active, stable, dynamic);
            var archived := Filter(selected, (a: Session.UserAnchor) => a.itemIndex < cursor);
            var others := Filter(archived, (a: Session.UserAnchor) => active != Some(a.turnId));
            var at := if stable then 1 else 0;
            && (others != [] ==>
                  && at < |request|
                  && request[at] ==
                     HistoricalAnchors(Indices(Filter(others, (a: Session.UserAnchor) => a.content != ""))))
            && forall p :: 0 <= p < |request| && request[p].HistoricalAnchors? ==> others != [] && p == at
  {
    var archived := Filter(selected, (a: Session.UserAnchor) => a.itemIndex < cursor);
    var others := Filter(archived, (a: Session.UserAnchor) => active != Some(a.turnId));
    var kept := Indices(Filter(others, (a: Session.UserAnchor) => a.content != ""));
    var head, tail := if stable then [Stable] else [], if dynamic then [Dynamic] else [];
    var pinned, live := Pinned(items, archived, active), ContextEntries(items, cursor);
    assert Historical(archived, active) == if others == [] then [] else [HistoricalAnchors(kept)];
    assert Request(items, cursor, selected, active, stable, dynamic)
        == head + Historical(archived, active) + pinned + live + tail;
    ShownNoAnchors(items, archived, active, cursor);
    hide *;
    InFront(head + Historical(archived, active), pinned, live, tail);
  }

  lemma ShownNoAnchors(items: seq<Message>, archived: seq<Session.UserAnchor>, active: Option<Id>, cursor: nat)
    requires cursor <= |items|
    ensures NoAnchors(Pinned(items, archived, active)) && NoAnchors(ContextEntries(items, cursor))
    ensures NoAnchors([]) && NoAnchors([Dynamic])
  {
    ShownInOrder(items, Indices(Filter(archived, (a: Session.UserAnchor) => active == Some(a.turnId))));
    ShownInOrder(items, UnitMessages(Units(items, cursor)));
    hide ShownAll, Filter, UnitMessages, Units, Indices;
  }

  ghost predicate NoAnchors(entries: seq<Entry>) {
    forall p :: 0 <= p < |entries| ==> !entries[p].HistoricalAnchors?
  }

  lemma InFront(front: seq<Entry>, a: seq<Entry>, b: seq<Entry>, c: seq<Entry>)
    requires NoAnchors(a) && NoAnchors(b) && NoAnchors(c)
    ensures var all := front + a + b + c;
            && (forall p :: 0 <= p < |front| ==> all[p] == front[p])
            && (forall p :: |front| <= p < |all| ==> !all[p].HistoricalAnchors?)
  {
  }

  ghost predicate NoMessages(entries: seq<Entry>) {
    forall p :: 0 <= p < |entries| ==> !entries[p].Item? && !entries[p].TurnContext?
  }

  lemma Framed(items: seq<Message>, front: seq<Entry>, mid: seq<Entry>, tail: seq<Entry>)
    requires NoMessages(front) && NoMessages(tail) && ContextsFit(items, mid)
    ensures ItemsIn(front + mid + tail) == ItemsIn(mid) && ContextsFit(items, front + mid + tail)
  {
    ItemsInConcat(front, mid);
    ItemsInConcat(front + mid, tail);
    NoItems(front);
    NoItems(tail);
    var all := front + mid + tail;
    hide Dated, ItemsIn;
    forall p | 0 <= p < |all| ensures FitsAt(items, all, p) {
      if |front| <= p < |front| + |mid| {
        assert FitsAt(items, mid, p - |front|);
        assert all[p] == mid[p - |front|];
        assert p > |front| ==> all[p - 1] == mid[p - |front| - 1];
        assert 0 < p == |front| ==> all[p - 1] == front[p - 1];
        assert p + 1 < |front| + |mid| ==> all[p + 1] == mid[p - |front| + 1];
      } else if p < |front| {
        assert all[p] == front[p];
      } else {
        assert all[p] == tail[p - |front| - |mid|];
      }
    }
    assert [] + ItemsIn(mid) + [] == ItemsIn(mid);
  }

  lemma {:induction false} NoItems(entries: seq<Entry>)
    requires NoMessages(entries)
    ensures ItemsIn(entries) == []
  {
    if entries != [] { NoItems(entries[1..]); }
  }

  lemma LiveShown(items: seq<Message>, cursor: nat)
    requires cursor <= |items|
    ensures var live := ContextEntries(items, cursor);
            forall p :: 0 <= p < |live| ==> live[p] != Stable && live[p] != Dynamic
  {
    ShownInOrder(items, UnitMessages(Units(items, cursor)));
    hide ShownAll;
  }

  lemma AnchorsShown(items: seq<Message>, archived: seq<Session.UserAnchor>, active: Option<Id>)
    ensures var mid := Historical(archived, active) + Pinned(items, archived, active);
            forall p :: 0 <= p < |mid| ==> mid[p] != Stable && mid[p] != Dynamic
  {
    ShownInOrder(items, Indices(Filter(archived, (a: Session.UserAnchor) => active == Some(a.turnId))));
    hide ShownAll, Filter;
  }

  lemma Layout(head: seq<Entry>, mid: seq<Entry>, live: seq<Entry>, tail: seq<Entry>, stable: bool, dynamic: bool)
    requires head == if stable then [Stable] else []
    requires tail == if dynamic then [Dynamic] else []
    requires forall p :: 0 <= p < |mid| ==> mid[p] != Stable && mid[p] != Dynamic
    requires forall p :: 0 <= p < |live| ==> live[p] != Stable && live[p] != Dynamic
    ensures var request := head + mid + live + tail;
            && (stable <==> request != [] && request[0] == Stable)
            && (dynamic <==> request != [] && Last(request) == Dynamic)
            && (forall p :: 0 < p < |request| ==> request[p] != Stable)
            && (forall p :: 0 <= p < |request| - 1 ==> request[p] != Dynamic)
            && |request| >= |live| + |tail|
            && request[|request| - |tail| - |live|..|request| - |tail|] == live
  {
  }

  // ---------------------------------------------------------------- counting

  function Count(s: seq<nat>, x: nat): (n: nat) {
    if s == [] then 0 else (if s[0] == x then 1 else 0) + Count(s[1..], x)
  }

  lemma {:induction false} CountConcat(a: seq<nat>, b: seq<nat>, x: nat)
    ensures Count(a + b, x) == Count(a, x) + Count(b, x)
  {
    if a == [] {
      assert a + b == b;
    } else {
      assert (a + b)[1..] == a[1..] + b;
      CountConcat(a[1..], b, x);
    }
  }

  lemma {:induction false} CountNone(s: seq<nat>, x: nat)
    requires x !in s
    ensures Count(s, x) == 0
  {
    if s != [] { CountNone(s[1..], x); }
  }

  /** How often message i reaches the model through a request. */
  function Mentions(request: seq<Entry>, i: nat): (n: nat) {
    if request == [] then 0
    else (match request[0]
          case Item(k) => if k == i then 1 else 0
          case HistoricalAnchors(indices) => Count(indices, i)
          case _ => 0)
         + Mentions(request[1..], i)
  }

  lemma {:induction false} MentionsConcat(a: seq<Entry>, b: seq<Entry>, i: nat)
    ensures Mentions(a + b, i) == Mentions(a, i) + Mentions(b, i)
  {
    if a == [] {
      assert a + b == b;
    } else {
      assert (a + b)[1..] == a[1..] + b;
      MentionsConcat(a[1..], b, i);
    }
  }

  lemma {:induction false} MentionsShown(items: seq<Message>, indices: seq<nat>, i: nat)
    ensures Mentions(ShownAll(items, indices), i) == Count(indices, i)
  {
    if indices != [] {
      MentionsShown(items, indices[1..], i);
      MentionsConcat(Shown(items, indices[0]), ShownAll(items, indices[1..]), i);
      var k := indices[0];
      assert Mentions([Item(k)], i) == if k == i then 1 else 0;
      assert [TurnContext(k), Item(k)][1..] == [Item(k)];
    }
  }

  /** A message that neither calls tools nor can follow such a call. */
  ghost predicate Plain(m: Message) {
    && m.role != ToolRole && m.origin !in {ToolMedia, UserInteraction, HookFeedback, ToolDelivery}
    && (m.role != AssistantRole || m.toolCalls == [])
  }

  /** A plain message of any role is a unit of its own and is shown. */
  lemma {:induction false} PlainMessageLive(items: seq<Message>, c: nat, i: nat)
    requires c <= |items| && i < |items| && Plain(items[i])
    ensures Count(UnitMessages(Units(items, c)), i) == if i < c then 0 else 1
    decreases |items| - c
  {
    if c < |items| {
      var u := UnitAt(items, c);
      PlainMessageLive(items, u.end, i);
      UnitFirst(items, c, i);
      UnitWithin(items, c);
      if i == c {
        assert u.messages == [i] && [i][1..] == [];
        assert Count([i], i) == 1 + Count([], i);
      } else {
        assert i !in u.messages;
        CountNone(u.messages, i);
      }
    }
  }

  lemma UnitFirst(items: seq<Message>, c: nat, i: nat)
    requires c < |items|
    ensures Count(UnitMessages(Units(items, c)), i) ==
            Count(UnitAt(items, c).messages, i) + Count(UnitMessages(Units(items, UnitAt(items, c).end)), i)
  {
    var u := UnitAt(items, c);
    CountConcat(u.messages, UnitMessages(Units(items, u.end)), i);
    assert Units(items, c)[1..] == Units(items, u.end);
  }

  /** No tool call is open at `c`: what follows is not part of a batch until one begins. */
  ghost predicate NoCalls(items: seq<Message>, c: nat, i: nat)
    requires i < |items|
  {
    forall j :: c <= j <= i ==> items[j].role != AssistantRole || items[j].toolCalls == []
  }

  /** Messages behind a boundary with no tool call between: a tool result or a delivery to
      the user is hidden from the model, everything else is shown once. */
  lemma {:induction false} LooseMessageLive(items: seq<Message>, c: nat, i: nat)
    requires c <= i < |items| && NoCalls(items, c, i)
    ensures Count(UnitMessages(Units(items, c)), i) ==
            if items[i].role == ToolRole || items[i].origin == ToolDelivery then 0 else 1
    decreases i - c
  {
    var u := UnitAt(items, c);
    UnitFirst(items, c, i);
    assert u.end == c + 1;
    if i == c {
      UnitsBehind(items, c + 1, i);
      assert [i][1..] == [] && Count([i], i) == 1 + Count([], i);
    } else {
      LooseMessageLive(items, c + 1, i);
      UnitWithin(items, c);
      CountNone(u.messages, i);
    }
  }

  /** Units from a later index on do not show an earlier message. */
  lemma {:induction false} UnitsBehind(items: seq<Message>, c: nat, i: nat)
    requires i < c <= |items|
    ensures Count(UnitMessages(Units(items, c)), i) == 0
    decreases |items| - c
  {
    if c < |items| {
      UnitFirst(items, c, i);
      UnitWithin(items, c);
      CountNone(UnitAt(items, c).messages, i);
      UnitsBehind(items, UnitAt(items, c).end, i);
    }
  }

  /** The messages of a batch are shown as its unit shows them, and nowhere else. */
  lemma {:induction false} BatchMessageLive(items: seq<Message>, c: nat, b: nat, e: nat, i: nat)
    requires c <= b && Projection.IsBatch(items, b, e) && b <= i < e
    requires items[b].origin !in {ToolMedia, UserInteraction, HookFeedback, ToolDelivery}
    ensures Count(UnitMessages(Units(items, c)), i) == Count(UnitAt(items, b).messages, i)
    decreases b - c
  {
    UnitFirst(items, c, i);
    var u := UnitAt(items, c);
    if c == b {
      Projection.BatchUnit(items, b, e);
      UnitsBehind(items, e, i);
    } else {
      assert u.end > b ==> Projection.Follows(items[b]);
      BatchMessageLive(items, u.end, b, e, i);
      UnitWithin(items, c);
      CountNone(u.messages, i);
    }
  }

  /** Among anchors with distinct items, filtering keeps or drops the one for `a`. */
  lemma {:induction false} CountFilter(anchors: seq<Session.UserAnchor>, p: Session.UserAnchor -> bool,
      a: Session.UserAnchor)
    requires forall k :: 0 <= k < |anchors| && anchors[k].itemIndex == a.itemIndex ==> anchors[k] == a
    ensures Count(Indices(Filter(anchors, p)), a.itemIndex) ==
            if p(a) then Count(Indices(anchors), a.itemIndex) else 0
  {
    if anchors != [] {
      CountFilter(anchors[1..], p, a);
      IndicesCons(anchors[0], anchors[1..]);
      IndicesCons(anchors[0], Filter(anchors[1..], p));
      assert anchors == [anchors[0]] + anchors[1..];
      assert Filter(anchors, p) ==
             if p(anchors[0]) then [anchors[0]] + Filter(anchors[1..], p) else Filter(anchors[1..], p);
    }
  }

  lemma IndicesCons(a: Session.UserAnchor, rest: seq<Session.UserAnchor>)
    ensures Indices([a] + rest) == [a.itemIndex] + Indices(rest)
    ensures forall x :: Count(Indices([a] + rest), x) == (if a.itemIndex == x then 1 else 0) + Count(Indices(rest), x)
  {
    assert Indices([a] + rest) == [a.itemIndex] + Indices(rest);
    assert Indices([a] + rest)[1..] == Indices(rest);
  }

  lemma IndicesConcat(a: seq<Session.UserAnchor>, b: seq<Session.UserAnchor>)
    ensures Indices(a + b) == Indices(a) + Indices(b)
  {
  }

  lemma {:induction false} CountIncreasing(anchors: seq<Session.UserAnchor>, k: nat)
    requires k < |anchors|
    requires forall i, j :: 0 <= i < j < |anchors| ==> anchors[i].itemIndex < anchors[j].itemIndex
    ensures Count(Indices(anchors), anchors[k].itemIndex) == 1
  {
    IndicesCons(anchors[0], anchors[1..]);
    assert anchors == [anchors[0]] + anchors[1..];
    if k == 0 {
      CountNone(Indices(anchors[1..]), anchors[0].itemIndex);
    } else {
      CountIncreasing(anchors[1..], k - 1);
    }
  }

  lemma {:induction false} CountOfTurns(anchors: seq<Session.UserAnchor>, turnIds: seq<Id>, k: nat)
    requires k < |anchors| && Distinct(turnIds)
    requires forall i, j :: 0 <= i < j < |anchors| ==> anchors[i].itemIndex < anchors[j].itemIndex
    ensures Count(Indices(OfTurns(anchors, turnIds)), anchors[k].itemIndex) ==
            if anchors[k].turnId in turnIds then 1 else 0
  {
    if turnIds != [] {
      var a, t := anchors[k], turnIds[0];
      CountOfTurns(anchors, turnIds[1..], k);
      IndicesConcat(OfTurn(anchors, t), OfTurns(anchors, turnIds[1..]));
      CountConcat(Indices(OfTurn(anchors, t)), Indices(OfTurns(anchors, turnIds[1..])), a.itemIndex);
      assert forall i :: 0 <= i < |anchors| && anchors[i].itemIndex == a.itemIndex ==> i == k;
      CountFilter(anchors, (x: Session.UserAnchor) => x.turnId == t, a);
      CountIncreasing(anchors, k);
      assert turnIds == [t] + turnIds[1..];
      assert t !in turnIds[1..];
    }
  }

  /** Every conversation message of the user in a selected turn reaches the model
      exactly once, as an anchor when archived and live otherwise; the only exception
      is an archived message of an earlier turn without any content. */
  lemma RepresentedOnce(items: seq<Message>, cursor: nat, anchors: seq<Session.UserAnchor>, turnIds: seq<Id>,
                        active: Option<Id>, stable: bool, dynamic: bool, k: nat)
    requires cursor <= |items| && Anchored(items, anchors) && Distinct(turnIds)
    requires k < |anchors| && anchors[k].turnId in turnIds && items[anchors[k].itemIndex].origin == Conversation
    ensures var a := anchors[k];
            Mentions(Request(items, cursor, OfTurns(anchors, turnIds), active, stable, dynamic), a.itemIndex) ==
            if a.itemIndex < cursor && active != Some(a.turnId) && a.content == "" then 0 else 1
  {
    var a, selected := anchors[k], OfTurns(anchors, turnIds);
    CountOfTurns(anchors, turnIds, k);
    SelectedAreAnchors(anchors, turnIds);
    assert forall i :: 0 <= i < |selected| && selected[i].itemIndex == a.itemIndex ==> selected[i] == a by {
      forall i | 0 <= i < |selected| && selected[i].itemIndex == a.itemIndex ensures selected[i] == a {
        var j :| 0 <= j < |anchors| && anchors[j] == selected[i];
        assert j == k;
      }
    }
    PlainMessageLive(items, cursor, a.itemIndex);
    MentionsOfSelected(items, cursor, selected, active, stable, dynamic, a);
  }

  /** The same, said of the messages themselves: in a session replayed from any journal, of
      each conversation message that the user wrote in a turn of the selected stretch. */
  lemma MessageRepresentedOnce(preset: string, events: seq<Session.Event>, active: Option<Id>, j: nat, cursor: nat,
                               stable: bool, dynamic: bool, i: nat)
    requires var s, ms := Session.Fold(Session.Initial(preset), events), Session.MessageEvents(events);
             && (active.Some? ==> active.value in s.turns.keys)
             && j <= |TurnWindow(s.turns.keys, active)| && cursor <= |s.items|
             && i < |ms| && ms[i].turnId.Some? && ms[i].turnId.value in TurnWindow(s.turns.keys, active)[j..]
             && ms[i].body.message.role == UserRole && ms[i].body.message.origin == Conversation
    ensures var s, e := Session.Fold(Session.Initial(preset), events), Session.MessageEvents(events)[i];
            var selected := OfTurns(s.anchors, TurnWindow(s.turns.keys, active)[j..]);
            && i < |s.items| && s.items[i] == e.body.message
            && Mentions(Request(s.items, cursor, selected, active, stable, dynamic), i) ==
               if i < cursor && active != e.turnId && e.body.message.content == "" then 0 else 1
  {
    var s, ms := Session.Fold(Session.Initial(preset), events), Session.MessageEvents(events);
    var turnIds := TurnWindow(s.turns.keys, active)[j..];
    Session.AnchorsIndexMessageEvents(preset, events);
    ReplayedIsAnchored(preset, events);
    assert Distinct(turnIds) by {
      Session.DictsFitAlways(preset, events);
      hide Session.Fold;
      DistinctPart(s.turns.keys, TurnWindow(s.turns.keys, active), j);
    }
    assert Session.HasAnchor(s.anchors, i) by { assert Session.Anchored(ms[i]); }
    var k :| 0 <= k < |s.anchors| && s.anchors[k].itemIndex == i;
    assert Session.AnchorPointsAt(s.anchors[k], ms);
    hide *;
    RepresentedOnce(s.items, cursor, s.anchors, turnIds, active, stable, dynamic, k);
  }

  lemma DistinctPart<T>(s: seq<T>, window: seq<T>, j: nat)
    requires Distinct(s) && window <= s && j <= |window|
    ensures Distinct(window[j..])
  {
    assert forall i :: 0 <= i < |window[j..]| ==> window[j..][i] == s[j + i];
  }

  lemma {:induction false} SelectedAreAnchors(anchors: seq<Session.UserAnchor>, turnIds: seq<Id>)
    ensures forall i :: 0 <= i < |OfTurns(anchors, turnIds)| ==> OfTurns(anchors, turnIds)[i] in anchors
  {
    if turnIds != [] { SelectedAreAnchors(anchors, turnIds[1..]); }
  }

  lemma MentionsOfSelected(items: seq<Message>, cursor: nat, selected: seq<Session.UserAnchor>, active: Option<Id>,
                           stable: bool, dynamic: bool, a: Session.UserAnchor)
    requires cursor <= |items|
    requires forall i :: 0 <= i < |selected| && selected[i].itemIndex == a.itemIndex ==> selected[i] == a
    requires Count(Indices(selected), a.itemIndex) == 1
    requires Count(UnitMessages(Units(items, cursor)), a.itemIndex) == if a.itemIndex < cursor then 0 else 1
    ensures Mentions(Request(items, cursor, selected, active, stable, dynamic), a.itemIndex) ==
            if a.itemIndex < cursor && active != Some(a.turnId) && a.content == "" then 0 else 1
  {
    hide Historical, Pinned, UnitMessages, Units, ShownAll, Count;
    var i := a.itemIndex;
    var archived := Filter(selected, (x: Session.UserAnchor) => x.itemIndex < cursor);
    assert Count(Indices(archived), i) == if i < cursor then 1 else 0 by {
      CountFilter(selected, (x: Session.UserAnchor) => x.itemIndex < cursor, a);
    }
    assert forall k :: 0 <= k < |archived| && archived[k].itemIndex == i ==> archived[k] == a;
    hide Filter;
    MentionsShown(items, UnitMessages(Units(items, cursor)), i);
    MentionsPinned(items, archived, active, a);
    MentionsHistorical(archived, active, a);
    var A, D: seq<Entry> := if stable then [Stable] else [], if dynamic then [Dynamic] else [];
    assert [Stable][1..] == [] && [Dynamic][1..] == [];
    MentionsOfFive(A, Historical(archived, active), Pinned(items, archived, active), ContextEntries(items, cursor),
                   D, i);
  }

  lemma MentionsOfFive(a: seq<Entry>, b: seq<Entry>, c: seq<Entry>, d: seq<Entry>, e: seq<Entry>, i: nat)
    ensures Mentions(a + b + c + d + e, i) ==
            Mentions(a, i) + Mentions(b, i) + Mentions(c, i) + Mentions(d, i) + Mentions(e, i)
  {
    MentionsConcat(a + b + c + d, e, i);
    MentionsConcat(a + b + c, d, i);
    MentionsConcat(a + b, c, i);
    MentionsConcat(a, b, i);
  }

  lemma MentionsPinned(items: seq<Message>, archived: seq<Session.UserAnchor>, active: Option<Id>,
      a: Session.UserAnchor)
    requires forall i :: 0 <= i < |archived| && archived[i].itemIndex == a.itemIndex ==> archived[i] == a
    ensures Mentions(Pinned(items, archived, active), a.itemIndex) ==
            if active == Some(a.turnId) then Count(Indices(archived), a.itemIndex) else 0
  {
    var p := (x: Session.UserAnchor) => active == Some(x.turnId);
    CountFilter(archived, p, a);
    MentionsShown(items, Indices(Filter(archived, p)), a.itemIndex);
  }

  lemma MentionsHistorical(archived: seq<Session.UserAnchor>, active: Option<Id>, a: Session.UserAnchor)
    requires forall i :: 0 <= i < |archived| && archived[i].itemIndex == a.itemIndex ==> archived[i] == a
    ensures Mentions(Historical(archived, active), a.itemIndex) ==
            if active != Some(a.turnId) && a.content != "" then Count(Indices(archived), a.itemIndex) else 0
  {
    var p := (x: Session.UserAnchor) => active != Some(x.turnId);
    var q := (x: Session.UserAnchor) => x.content != "";
    var others := Filter(archived, p);
    CountFilter(archived, p, a);
    CountFilter(others, q, a);
    var indices := Indices(Filter(others, q));
    assert [HistoricalAnchors(indices)][1..] == [];
    assert Mentions([HistoricalAnchors(indices)], a.itemIndex) == Count(indices, a.itemIndex);
  }
}
