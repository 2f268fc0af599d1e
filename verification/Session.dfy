/** Session state as a fold of journal events, the live session that writes each
    event through to the journal file, and recovery of stale work. */
module Session {
  import opened Common
  import opened Messages
  import JournalFile

  datatype Source = UserInput | Steering | QuestionResponse | ApprovalResponse

  datatype TurnStatus = TurnRunning | TurnCompleted | TurnCancelled | TurnInterrupted | TurnUnknown | TurnFailed

  datatype ToolStatus = ToolStarted | ToolCompleted | ToolFailed | ToolCancelled | ToolUnknown

  datatype JobStatus = JobSubmitted | JobRunning | JobCompleted | JobFailed | JobCancelled | JobInterrupted

  datatype Turn = Turn(id: Id, status: TurnStatus, startedAt: Option<Time>, finishedAt: Option<Time>,
                       error: Option<string>)

  datatype ToolExecution = ToolExecution(id: Id, turnId: Option<Id>, name: string, arguments: string,
                                         status: ToolStatus, startedAt: Option<Time>, completedAt: Option<Time>,
                                         error: Option<string>)

  datatype JobExecution = JobExecution(id: Id, turnId: Id, kind: string, status: JobStatus,
                                       submittedAt: Option<Time>, startedAt: Option<Time>, completedAt: Option<Time>,
                                       error: Option<string>, details: string, elapsed: Option<int>,
                                       progress: Option<string>, summary: Option<string>)

  datatype UserAnchor = UserAnchor(turnId: Id, content: string, timestamp: Time, source: Source, itemIndex: nat)

  datatype Usage = Usage(inputTokens: Option<nat>, cacheReadTokens: Option<nat>)

  datatype CacheUsage = CacheUsage(inputTokens: nat, cacheReadTokens: nat)

  /** Event type and payload together. `TurnEnded` stands for every `turn_...` type
      except `turn_started`; `Other` for types that replay ignores. */
  datatype Body =
    | MessageAppended(message: Message, source: Source)
    | ModelCompleted(usage: Option<Usage>, tokenAnchor: Option<string>)
    | CompressionCompleted(usage: Option<Usage>)
    | TurnBegan
    | TurnEnded(turnStatus: TurnStatus, error: Option<string>)
    | ToolBegan(name: string, arguments: string)
    | ToolEnded(toolStatus: ToolStatus, name: string, error: Option<string>)
    | ToolRecovered
    | JobWasSubmitted(jobId: Id, kind: string, details: string)
    | JobBegan(jobId: Id, kind: string)
    | JobEnded(jobId: Id, kind: string, jobStatus: JobStatus, elapsed: Option<int>,
               summary: Option<string>, progress: Option<string>, error: Option<string>)
    | ContextArchived(archiveSummary: Option<string>, cursor: nat)
    | PresetChanged(preset: string)
    | PlanUpdated(plan: string)
    | Other(name: string)

  datatype Event = Event(seqno: int, eventId: Id, turnId: Option<Id>, time: Time, toolCallId: Option<Id>, body: Body)

  datatype State = State(
    items: seq<Message>,
    archivedSummary: Option<string>,
    archivedCursor: nat,
    compressions: nat,
    preset: string,
    plan: Option<string>,
    cacheUsage: Option<CacheUsage>,
    tokenAnchor: Option<string>,
    turns: Dict<Turn>,
    tools: Dict<ToolExecution>,
    jobs: Dict<JobExecution>,
    anchors: seq<UserAnchor>)

  /** A session before its first event; the preset comes from session metadata. */
  function Initial(preset: string): (s: State) {
    State([], None, 0, 0, preset, None, None, None, Dict([], map[]), Dict([], map[]), Dict([], map[]), [])
  }

  /** Python truthiness of an optional string. */
  predicate Truthy(id: Option<Id>) {
    id.Some? && id.value != ""
  }

  function AddUsage(current: Option<CacheUsage>, usage: Option<Usage>): (r: Option<CacheUsage>) {
    if usage.Some? && usage.value.inputTokens.Some? && usage.value.cacheReadTokens.Some? then
      var previous := if current.Some? then current.value else CacheUsage(0, 0);
      Some(CacheUsage(previous.inputTokens + usage.value.inputTokens.value,
                      previous.cacheReadTokens + usage.value.cacheReadTokens.value))
    else current
  }

  function NextItems(items: seq<Message>, e: Event): (r: seq<Message>) {
    if e.body.MessageAppended? then items + [e.body.message] else items
  }

  function NextAnchors(anchors: seq<UserAnchor>, index: nat, e: Event): (r: seq<UserAnchor>) {
    if Anchored(e) then
      var m := e.body.message;
      anchors + [UserAnchor(e.turnId.value, m.content,
                            if m.timestamp.Some? then m.timestamp.value else e.time, e.body.source, index)]
    else anchors
  }

  predicate Anchored(e: Event) {
    e.body.MessageAppended? && e.turnId.Some? && e.body.message.UserAuthored()
  }

  function NextTurns(turns: Dict<Turn>, e: Event): (r: Dict<Turn>) {
    if !Truthy(e.turnId) then turns
    else
      var id := e.turnId.value;
      match e.body
      case TurnBegan => turns.Put(id, Turn(id, TurnRunning, Some(e.time), None, None))
      case TurnEnded(status, error) =>
        var turn := if id in turns.vals then turns.vals[id] else Turn(id, TurnUnknown, None, None, None);
        turns.Put(id, turn.(status := status, finishedAt := Some(e.time), error := error))
      case _ => turns
  }

  function NextTools(tools: Dict<ToolExecution>, e: Event): (r: Dict<ToolExecution>) {
    if !Truthy(e.toolCallId) then tools
    else
      var id := e.toolCallId.value;
      match e.body
      case ToolBegan(name, arguments) =>
        tools.Put(id, ToolExecution(id, e.turnId, name, arguments, ToolStarted, Some(e.time), None, None))
      case ToolEnded(status, name, error) =>
        var tool := if id in tools.vals then tools.vals[id]
                    else ToolExecution(id, e.turnId, name, "", ToolUnknown, None, None, None);
        tools.Put(id, tool.(status := status, completedAt := Some(e.time), error := error))
      case ToolRecovered =>
        if id in tools.vals then
          tools.Put(id, tools.vals[id].(status := ToolUnknown, completedAt := Some(e.time)))
        else tools
      case _ => tools
  }

  function JobOrNew(jobs: Dict<JobExecution>, id: Id, turnId: Id, kind: string, status: JobStatus): (j: JobExecution) {
    if id in jobs.vals then jobs.vals[id]
    else JobExecution(id, turnId, kind, status, None, None, None, None, "", Some(0), None, None)
  }

  function NextJobs(jobs: Dict<JobExecution>, e: Event): (r: Dict<JobExecution>) {
    if e.turnId.None? then jobs
    else
      var turnId := e.turnId.value;
      match e.body
      case JobWasSubmitted(id, kind, details) =>
        jobs.Put(id, JobExecution(id, turnId, kind, JobSubmitted, Some(e.time), None, None, None, details,
                                  Some(0), None, None))
      case JobBegan(id, kind) =>
        jobs.Put(id, JobOrNew(jobs, id, turnId, kind, JobRunning).(status := JobRunning, startedAt := Some(e.time)))
      case JobEnded(id, kind, status, elapsed, summary, progress, error) =>
        jobs.Put(id, JobOrNew(jobs, id, turnId, kind, JobInterrupted)
                       .(status := status, completedAt := Some(e.time), elapsed := elapsed, summary := summary,
                         progress := progress, error := error))
      case _ => jobs
  }

  /** Replay of one durable event. */
  function Apply(s: State, e: Event): (r: State) {
    var archived := e.body.ContextArchived?;
    State(
      NextItems(s.items, e),
      if archived then e.body.archiveSummary else s.archivedSummary,
      if archived then e.body.cursor else s.archivedCursor,
      if archived then s.compressions + 1 else s.compressions,
      if e.body.PresetChanged? then e.body.preset else s.preset,
      if e.body.PlanUpdated? then Some(e.body.plan) else s.plan,
      if e.body.ModelCompleted? || e.body.CompressionCompleted? then AddUsage(s.cacheUsage, e.body.usage)
      else s.cacheUsage,
      if archived then None else if e.body.ModelCompleted? then e.body.tokenAnchor else s.tokenAnchor,
      NextTurns(s.turns, e),
      NextTools(s.tools, e),
      NextJobs(s.jobs, e),
      NextAnchors(s.anchors, |s.items|, e))
  }

  function Fold(s: State, events: seq<Event>): (r: State)
    decreases |events|
  {
    if events == [] then s else Apply(Fold(s, events[..|events| - 1]), Last(events))
  }

  lemma FoldOne(s: State, events: seq<Event>, e: Event)
    ensures Fold(s, events + [e]) == Apply(Fold(s, events), e)
  {
    assert (events + [e])[..|events|] == events;
  }

  lemma {:induction false} FoldConcat(s: State, a: seq<Event>, b: seq<Event>)
    ensures Fold(s, a + b) == Fold(Fold(s, a), b)
    decreases |b|
  {
    if b == [] {
      assert a + b == a;
    } else {
      var front := b[..|b| - 1];
      assert (a + b)[..|a + b| - 1] == a + front;
      FoldConcat(s, a, front);
    }
  }

  // ---------------------------------------------------------------- shape of replayed states

  ghost predicate DictsFit(s: State) {
    && s.turns.Valid() && s.tools.Valid() && s.jobs.Valid()
    && (forall k :: k in s.turns.vals ==> k != "" && s.turns.vals[k].id == k)
    && (forall k :: k in s.tools.vals ==> k != "" && s.tools.vals[k].id == k)
    && (forall k :: k in s.jobs.vals ==> s.jobs.vals[k].id == k)
  }

  lemma {:induction false} DictsFitAlways(preset: string, events: seq<Event>)
    ensures DictsFit(Fold(Initial(preset), events))
    decreases |events|
  {
    if events != [] {
      DictsFitAlways(preset, events[..|events| - 1]);
      NextTurnsFits(Fold(Initial(preset), events[..|events| - 1]).turns, Last(events));
      NextToolsFits(Fold(Initial(preset), events[..|events| - 1]).tools, Last(events));
      NextJobsFits(Fold(Initial(preset), events[..|events| - 1]).jobs, Last(events));
    }
  }

  lemma NextTurnsFits(turns: Dict<Turn>, e: Event)
    requires turns.Valid() && forall k :: k in turns.vals ==> k != "" && turns.vals[k].id == k
    ensures NextTurns(turns, e).Valid()
    ensures forall k :: k in NextTurns(turns, e).vals ==> k != "" && NextTurns(turns, e).vals[k].id == k
  {
  }

  lemma NextToolsFits(tools: Dict<ToolExecution>, e: Event)
    requires tools.Valid() && forall k :: k in tools.vals ==> k != "" && tools.vals[k].id == k
    ensures NextTools(tools, e).Valid()
    ensures forall k :: k in NextTools(tools, e).vals ==> k != "" && NextTools(tools, e).vals[k].id == k
  {
  }

  lemma NextJobsFits(jobs: Dict<JobExecution>, e: Event)
    requires jobs.Valid() && forall k :: k in jobs.vals ==> jobs.vals[k].id == k
    ensures NextJobs(jobs, e).Valid()
    ensures forall k :: k in NextJobs(jobs, e).vals ==> NextJobs(jobs, e).vals[k].id == k
  {
  }

  // ---------------------------------------------------------------- anchors and message events

  function MessageEvents(events: seq<Event>): (r: seq<Event>)
    ensures forall i :: 0 <= i < |r| ==> r[i].body.MessageAppended?
    decreases |events|
  {
    if events == [] then []
    else MessageEvents(events[..|events| - 1]) + (if Last(events).body.MessageAppended? then [Last(events)] else [])
  }

  ghost predicate AnchorPointsAt(a: UserAnchor, ms: seq<Event>) {
    && a.itemIndex < |ms|
    && var e := ms[a.itemIndex];
       && e.body.MessageAppended? && e.turnId == Some(a.turnId)
       && e.body.message.content == a.content
       && e.body.source == a.source
       && a.timestamp == (if e.body.message.timestamp.Some? then e.body.message.timestamp.value else e.time)
  }

  ghost predicate HasAnchor(anchors: seq<UserAnchor>, i: nat) {
    exists k :: 0 <= k < |anchors| && anchors[k].itemIndex == i
  }

  /** Everything the anchor list says about the message events, and nothing more. */
  ghost predicate AnchorsMatch(items: seq<Message>, anchors: seq<UserAnchor>, ms: seq<Event>)
    requires forall i :: 0 <= i < |ms| ==> ms[i].body.MessageAppended?
  {
    && |items| == |ms|
    && (forall i :: 0 <= i < |ms| ==> items[i] == ms[i].body.message)
    && (forall k :: 0 <= k < |anchors| ==> AnchorPointsAt(anchors[k], ms))
    && (forall i :: 0 <= i < |ms| ==>
          (HasAnchor(anchors, i) <==>
           ms[i].turnId.Some? && ms[i].body.message.role == UserRole
           && ms[i].body.message.origin in {Conversation, UserInteraction}))
    && (forall i, j :: 0 <= i < j < |anchors| ==> anchors[i].itemIndex < anchors[j].itemIndex)
  }

  /** `item_index` is a position among the message events, in both directions: an
      anchor points at the event it came from, and every user-authored message of a
      turn has exactly one anchor. */
  lemma {:induction false} AnchorsIndexMessageEvents(preset: string, events: seq<Event>)
    ensures var s := Fold(Initial(preset), events);
            AnchorsMatch(s.items, s.anchors, MessageEvents(events))
    decreases |events|
  {
    if events != [] {
      var front, e := events[..|events| - 1], Last(events);
      AnchorsIndexMessageEvents(preset, front);
      var s := Fold(Initial(preset), front);
      AnchorsMatchStep(s.items, s.anchors, MessageEvents(front), e);
    }
  }

  lemma AnchorsMatchStep(items: seq<Message>, anchors: seq<UserAnchor>, ms: seq<Event>, e: Event)
    requires forall i :: 0 <= i < |ms| ==> ms[i].body.MessageAppended?
    requires AnchorsMatch(items, anchors, ms)
    ensures AnchorsMatch(NextItems(items, e), NextAnchors(anchors, |items|, e),
                         ms + if e.body.MessageAppended? then [e] else [])
  {
    var anchors' := NextAnchors(anchors, |items|, e);
    var ms' := ms + if e.body.MessageAppended? then [e] else [];
    forall i | 0 <= i < |ms'| && Anchored(ms'[i]) ensures HasAnchor(anchors', i) {
      if i < |ms| {
        assert HasAnchor(anchors, i);
        var k :| 0 <= k < |anchors| && anchors[k].itemIndex == i;
        assert anchors'[k].itemIndex == i;
      } else {
        assert anchors'[|anchors|].itemIndex == i;
      }
    }
    forall k | 0 <= k < |anchors'| ensures AnchorPointsAt(anchors'[k], ms') {
      if k < |anchors| { assert AnchorPointsAt(anchors[k], ms); }
    }
  }

  // ---------------------------------------------------------------- recovery

  /** A fresh event id and a clock reading for each event that is created. */
  type Stamps = nat -> (Id, Time)

  function NextSeq(journal: seq<Event>): (n: int) {
    if journal == [] then 1 else Last(journal).seqno + 1
  }

  predicate StaleTurn(t: Turn) { t.status == TurnRunning }
  predicate StaleTool(t: ToolExecution) { t.status == ToolStarted }
  predicate StaleJob(j: JobExecution) { j.status == JobSubmitted || j.status == JobRunning }

  // Keys of the stale entries, in insertion order.

  function StaleTurns(d: Dict<Turn>): (r: seq<Id>)
    ensures forall i :: 0 <= i < |r| ==> r[i] in d.vals && StaleTurn(d.vals[r[i]])
    ensures forall k :: k in d.vals && k in d.keys && StaleTurn(d.vals[k]) ==> k in r
  {
    var stale := k => k in d.vals && StaleTurn(d.vals[k]);
    assert forall k :: k in d.keys && stale(k) ==> k in Filter(d.keys, stale) by {
      forall k ensures k in d.keys && stale(k) ==> k in Filter(d.keys, stale) { FilterHas(d.keys, stale, k); }
    }
    Filter(d.keys, stale)
  }

  function StaleTools(d: Dict<ToolExecution>): (r: seq<Id>)
    ensures forall i :: 0 <= i < |r| ==> r[i] in d.vals && StaleTool(d.vals[r[i]])
    ensures forall k :: k in d.vals && k in d.keys && StaleTool(d.vals[k]) ==> k in r
  {
    var stale := k => k in d.vals && StaleTool(d.vals[k]);
    assert forall k :: k in d.keys && stale(k) ==> k in Filter(d.keys, stale) by {
      forall k ensures k in d.keys && stale(k) ==> k in Filter(d.keys, stale) { FilterHas(d.keys, stale, k); }
    }
    Filter(d.keys, stale)
  }

  function StaleJobs(d: Dict<JobExecution>): (r: seq<Id>)
    ensures forall i :: 0 <= i < |r| ==> r[i] in d.vals && StaleJob(d.vals[r[i]])
    ensures forall k :: k in d.vals && k in d.keys && StaleJob(d.vals[k]) ==> k in r
  {
    var stale := k => k in d.vals && StaleJob(d.vals[k]);
    assert forall k :: k in d.keys && stale(k) ==> k in Filter(d.keys, stale) by {
      forall k ensures k in d.keys && stale(k) ==> k in Filter(d.keys, stale) { FilterHas(d.keys, stale, k); }
    }
    Filter(d.keys, stale)
  }

  function CloseTurn(id: Id, n: int, stamp: (Id, Time)): (e: Event) {
    Event(n, stamp.0, Some(id), stamp.1, None, TurnEnded(TurnUnknown, None))
  }

  function CloseTool(t: ToolExecution, n: int, stamp: (Id, Time)): (e: Event) {
    Event(n, stamp.0, t.turnId, stamp.1, Some(t.id), ToolRecovered)
  }

  function CloseJob(j: JobExecution, n: int, stamp: (Id, Time)): (e: Event) {
    Event(n, stamp.0, Some(j.turnId), stamp.1, None,
          JobEnded(j.id, j.kind, JobInterrupted, if j.startedAt.Some? then None else Some(0), None, None, None))
  }

  function TurnClosings(turns: Dict<Turn>, ids: seq<Id>, n: int, k: nat, stamps: Stamps): (r: seq<Event>)
    ensures |r| == |ids|
    ensures forall i :: 0 <= i < |r| ==> r[i].seqno == n + k + i && r[i].body.TurnEnded?
    decreases |ids|
  {
    if ids == [] then []
    else
      var m := n + k + |ids| - 1;
      TurnClosings(turns, ids[..|ids| - 1], n, k, stamps) + [CloseTurn(Last(ids), m, stamps(k + |ids| - 1))]
  }

  function ToolClosings(tools: Dict<ToolExecution>, ids: seq<Id>, n: int, k: nat, stamps: Stamps): (r: seq<Event>)
    requires forall i :: 0 <= i < |ids| ==> ids[i] in tools.vals
    ensures |r| == |ids|
    ensures forall i :: 0 <= i < |r| ==> r[i].seqno == n + k + i && r[i].body.ToolRecovered?
    decreases |ids|
  {
    if ids == [] then []
    else
      var m := n + k + |ids| - 1;
      ToolClosings(tools, ids[..|ids| - 1], n, k, stamps) + [CloseTool(tools.vals[Last(ids)], m, stamps(k + |ids| - 1))]
  }

  function JobClosings(jobs: Dict<JobExecution>, ids: seq<Id>, n: int, k: nat, stamps: Stamps): (r: seq<Event>)
    requires forall i :: 0 <= i < |ids| ==> ids[i] in jobs.vals
    ensures |r| == |ids|
    ensures forall i :: 0 <= i < |r| ==> r[i].seqno == n + k + i && r[i].body.JobEnded?
    decreases |ids|
  {
    if ids == [] then []
    else
      var m := n + k + |ids| - 1;
      JobClosings(jobs, ids[..|ids| - 1], n, k, stamps) + [CloseJob(jobs.vals[Last(ids)], m, stamps(k + |ids| - 1))]
  }

  /** The events `recover` creates, numbered from `n`. */
  function Recovery(s: State, n: int, stamps: Stamps): (r: seq<Event>) {
    var turns := StaleTurns(s.turns);
    var tools := StaleTools(s.tools);
    var jobs := StaleJobs(s.jobs);
    TurnClosings(s.turns, turns, n, 0, stamps)
    + ToolClosings(s.tools, tools, n, |turns|, stamps)
    + JobClosings(s.jobs, jobs, n, |turns| + |tools|, stamps)
  }

  ghost predicate ClosedTurn(t: Turn, t': Turn) {
    t'.finishedAt.Some? && t' == t.(status := TurnUnknown, finishedAt := t'.finishedAt, error := None)
  }

  ghost predicate ClosedTool(t: ToolExecution, t': ToolExecution) {
    t'.completedAt.Some? && t' == t.(status := ToolUnknown, completedAt := t'.completedAt)
  }

  ghost predicate ClosedJob(j: JobExecution, j': JobExecution) {
    && j'.completedAt.Some?
    && j' == j.(status := JobInterrupted, completedAt := j'.completedAt, error := None, summary := None,
                progress := None, elapsed := if j.startedAt.Some? then None else Some(0))
  }

  /** Same keys in the same order, and the same value everywhere except at `ids`. */
  ghost predicate OnlyAt<V>(d: Dict<V>, d': Dict<V>, ids: seq<Id>) {
    && d'.keys == d.keys
    && d'.vals.Keys == d.vals.Keys
    && forall k :: k in d.vals && k !in ids ==> d'.vals[k] == d.vals[k]
  }

  ghost predicate TurnsClosed(d: Dict<Turn>, d': Dict<Turn>, ids: seq<Id>) {
    && OnlyAt(d, d', ids)
    && forall i :: 0 <= i < |ids| ==> ids[i] in d.vals && ClosedTurn(d.vals[ids[i]], d'.vals[ids[i]])
  }

  ghost predicate ToolsClosed(d: Dict<ToolExecution>, d': Dict<ToolExecution>, ids: seq<Id>) {
    && OnlyAt(d, d', ids)
    && forall i :: 0 <= i < |ids| ==> ids[i] in d.vals && ClosedTool(d.vals[ids[i]], d'.vals[ids[i]])
  }

  ghost predicate JobsClosed(d: Dict<JobExecution>, d': Dict<JobExecution>, ids: seq<Id>) {
    && OnlyAt(d, d', ids)
    && forall i :: 0 <= i < |ids| ==> ids[i] in d.vals && ClosedJob(d.vals[ids[i]], d'.vals[ids[i]])
  }

  lemma DistinctFront<T>(s: seq<T>)
    requires Distinct(s) && s != []
    ensures Distinct(s[..|s| - 1]) && Last(s) !in s[..|s| - 1]
  {
  }

  /** One dictionary of the state is folded without looking at the others. */
  function FoldDict<V>(d: Dict<V>, events: seq<Event>, next: (Dict<V>, Event) -> Dict<V>): (r: Dict<V>)
    decreases |events|
  {
    if events == [] then d else next(FoldDict(d, events[..|events| - 1], next), Last(events))
  }

  lemma FoldDictSnoc<V>(d: Dict<V>, events: seq<Event>, e: Event, next: (Dict<V>, Event) -> Dict<V>)
    ensures FoldDict(d, events + [e], next) == next(FoldDict(d, events, next), e)
  {
    assert (events + [e])[..|events|] == events;
  }

  lemma FoldNothing<V>(d: Dict<V>, next: (Dict<V>, Event) -> Dict<V>)
    ensures FoldDict(d, [], next) == d
  {
  }

  ghost predicate Ignores<V(!new)>(events: seq<Event>, next: (Dict<V>, Event) -> Dict<V>) {
    forall i, d :: 0 <= i < |events| ==> next(d, events[i]) == d
  }

  lemma {:induction false} FoldDictSkips<V(!new)>(
      d: Dict<V>, a: seq<Event>, b: seq<Event>, c: seq<Event>, next: (Dict<V>, Event) -> Dict<V>)
    requires Ignores(a, next) && Ignores(c, next)
    ensures FoldDict(d, a + b + c, next) == FoldDict(d, b, next)
    decreases |a| + |b| + |c|
  {
    var all := a + b + c;
    if c != [] {
      assert all[..|all| - 1] == a + b + c[..|c| - 1];
      FoldDictSkips(d, a, b, c[..|c| - 1], next);
    } else if b != [] {
      assert all[..|all| - 1] == a + b[..|b| - 1] + c;
      FoldDictSkips(d, a, b[..|b| - 1], c, next);
    } else if a != [] {
      assert all[..|all| - 1] == a[..|a| - 1] + b + c;
      FoldDictSkips(d, a[..|a| - 1], b, c, next);
    }
  }

  predicate Closing(e: Event) {
    e.body.TurnEnded? || e.body.ToolRecovered? || e.body.JobEnded?
  }

  lemma {:induction false} FoldClosings(s: State, events: seq<Event>)
    requires forall i :: 0 <= i < |events| ==> Closing(events[i])
    ensures Fold(s, events) == s.(turns := FoldDict(s.turns, events, NextTurns),
                                  tools := FoldDict(s.tools, events, NextTools),
                                  jobs := FoldDict(s.jobs, events, NextJobs))
    decreases |events|
  {
    if events != [] {
      FoldClosings(s, events[..|events| - 1]);
      assert Closing(Last(events));
      hide NextTurns, NextTools, NextJobs;
    }
  }

  lemma TurnClosed(d: Dict<Turn>, d': Dict<Turn>, front: seq<Id>, id: Id, n: int, stamp: (Id, Time))
    requires TurnsClosed(d, d', front) && id !in front && id in d.vals && id != ""
    ensures TurnsClosed(d, NextTurns(d', CloseTurn(id, n, stamp)), front + [id])
  {
    var t := d.vals[id];
    var t' := t.(status := TurnUnknown, finishedAt := Some(stamp.1), error := None);
    assert NextTurns(d', CloseTurn(id, n, stamp)) == d'.Put(id, t');
    assert ClosedTurn(t, t');
    hide ClosedTurn, NextTurns, CloseTurn;
  }

  lemma TurnClosingsSnoc(d: Dict<Turn>, front: seq<Id>, id: Id, n: int, k: nat, stamps: Stamps)
    ensures TurnClosings(d, front + [id], n, k, stamps) ==
            TurnClosings(d, front, n, k, stamps) + [CloseTurn(id, n + k + |front|, stamps(k + |front|))]
  {
    hide CloseTurn;
    assert (front + [id])[..|front|] == front;
  }

  lemma {:induction false} TurnClosingsClose(d: Dict<Turn>, ids: seq<Id>, n: int, k: nat, stamps: Stamps)
    requires forall i :: 0 <= i < |ids| ==> ids[i] in d.vals && ids[i] != ""
    requires Distinct(ids)
    ensures TurnsClosed(d, FoldDict(d, TurnClosings(d, ids, n, k, stamps), NextTurns), ids)
    decreases |ids|
  {
    hide NextTurns, CloseTurn, Distinct, ClosedTurn, FoldDict;
    if ids == [] {
      FoldNothing(d, NextTurns);
    } else {
      hide TurnsClosed;
      var front, id := ids[..|ids| - 1], Last(ids);
      assert ids == front + [id] && id !in front && Distinct(front) by { DistinctFront(ids); }
      TurnClosingsClose(d, front, n, k, stamps);
      var closings, e := TurnClosings(d, front, n, k, stamps), CloseTurn(id, n + k + |front|, stamps(k + |front|));
      TurnClosingsSnoc(d, front, id, n, k, stamps);
      hide TurnClosings;
      FoldDictSnoc(d, closings, e, NextTurns);
      var d' := FoldDict(d, closings, NextTurns);
      TurnClosed(d, d', front, id, n + k + |front|, stamps(k + |front|));
    }
  }

  lemma ToolClosed(d: Dict<ToolExecution>, d': Dict<ToolExecution>, front: seq<Id>, id: Id, n: int, stamp: (Id, Time))
    requires ToolsClosed(d, d', front) && id !in front && id in d.vals && id != "" && d.vals[id].id == id
    ensures ToolsClosed(d, NextTools(d', CloseTool(d.vals[id], n, stamp)), front + [id])
  {
    var t := d.vals[id];
    var t' := t.(status := ToolUnknown, completedAt := Some(stamp.1));
    assert NextTools(d', CloseTool(d.vals[id], n, stamp)) == d'.Put(id, t');
    assert ClosedTool(t, t');
    hide ClosedTool, NextTools, CloseTool;
  }

  lemma ToolClosingsSnoc(d: Dict<ToolExecution>, front: seq<Id>, id: Id, n: int, k: nat, stamps: Stamps)
    requires id in d.vals && forall i :: 0 <= i < |front| ==> front[i] in d.vals
    ensures ToolClosings(d, front + [id], n, k, stamps) ==
            ToolClosings(d, front, n, k, stamps) + [CloseTool(d.vals[id], n + k + |front|, stamps(k + |front|))]
  {
    hide CloseTool;
    assert (front + [id])[..|front|] == front;
  }

  lemma {:induction false} ToolClosingsClose(d: Dict<ToolExecution>, ids: seq<Id>, n: int, k: nat, stamps: Stamps)
    requires forall i :: 0 <= i < |ids| ==> ids[i] in d.vals && ids[i] != "" && d.vals[ids[i]].id == ids[i]
    requires Distinct(ids)
    ensures ToolsClosed(d, FoldDict(d, ToolClosings(d, ids, n, k, stamps), NextTools), ids)
    decreases |ids|
  {
    hide NextTools, CloseTool, Distinct, ClosedTool, FoldDict;
    if ids == [] {
      FoldNothing(d, NextTools);
    } else {
      hide ToolsClosed;
      var front, id := ids[..|ids| - 1], Last(ids);
      assert ids == front + [id] && id !in front && Distinct(front) by { DistinctFront(ids); }
      ToolClosingsClose(d, front, n, k, stamps);
      var closings, e := ToolClosings(d, front, n, k, stamps),
        CloseTool(d.vals[id], n + k + |front|, stamps(k + |front|));
      ToolClosingsSnoc(d, front, id, n, k, stamps);
      hide ToolClosings;
      FoldDictSnoc(d, closings, e, NextTools);
      var d' := FoldDict(d, closings, NextTools);
      ToolClosed(d, d', front, id, n + k + |front|, stamps(k + |front|));
    }
  }

  lemma JobClosed(d: Dict<JobExecution>, d': Dict<JobExecution>, front: seq<Id>, id: Id, n: int, stamp: (Id, Time))
    requires JobsClosed(d, d', front) && id !in front && id in d.vals && d.vals[id].id == id
    ensures JobsClosed(d, NextJobs(d', CloseJob(d.vals[id], n, stamp)), front + [id])
  {
    var j := d.vals[id];
    var j' := j.(status := JobInterrupted, completedAt := Some(stamp.1), error := None, summary := None,
                 progress := None, elapsed := if j.startedAt.Some? then None else Some(0));
    assert d'.vals[id] == j;
    CloseJobPuts(d', id, n, stamp);
    hide NextJobs, CloseJob;
    assert ClosedJob(j, j');
    hide ClosedJob;
  }

  lemma CloseJobPuts(d: Dict<JobExecution>, id: Id, n: int, stamp: (Id, Time))
    requires id in d.vals && d.vals[id].id == id
    ensures var j := d.vals[id];
            var j' := j.(status := JobInterrupted, completedAt := Some(stamp.1), error := None, summary := None,
                         progress := None, elapsed := if j.startedAt.Some? then None else Some(0));
            NextJobs(d, CloseJob(j, n, stamp)) == d.Put(id, j')
  {
  }

  lemma JobClosingsSnoc(d: Dict<JobExecution>, front: seq<Id>, id: Id, n: int, k: nat, stamps: Stamps)
    requires id in d.vals && forall i :: 0 <= i < |front| ==> front[i] in d.vals
    ensures JobClosings(d, front + [id], n, k, stamps) ==
            JobClosings(d, front, n, k, stamps) + [CloseJob(d.vals[id], n + k + |front|, stamps(k + |front|))]
  {
    hide CloseJob;
    assert (front + [id])[..|front|] == front;
  }

  lemma {:induction false} JobClosingsClose(d: Dict<JobExecution>, ids: seq<Id>, n: int, k: nat, stamps: Stamps)
    requires forall i :: 0 <= i < |ids| ==> ids[i] in d.vals && d.vals[ids[i]].id == ids[i]
    requires Distinct(ids)
    ensures JobsClosed(d, FoldDict(d, JobClosings(d, ids, n, k, stamps), NextJobs), ids)
    decreases |ids|
  {
    hide NextJobs, CloseJob, Distinct, ClosedJob, FoldDict;
    if ids == [] {
      FoldNothing(d, NextJobs);
    } else {
      hide JobsClosed;
      var front, id := ids[..|ids| - 1], Last(ids);
      assert ids == front + [id] && id !in front && Distinct(front) by { DistinctFront(ids); }
      JobClosingsClose(d, front, n, k, stamps);
      var closings, e := JobClosings(d, front, n, k, stamps),
        CloseJob(d.vals[id], n + k + |front|, stamps(k + |front|));
      JobClosingsSnoc(d, front, id, n, k, stamps);
      hide JobClosings;
      FoldDictSnoc(d, closings, e, NextJobs);
      var d' := FoldDict(d, closings, NextJobs);
      JobClosed(d, d', front, id, n + k + |front|, stamps(k + |front|));
    }
  }

  ghost predicate Quiet(s: State) {
    && (forall k :: k in s.turns.vals ==> !StaleTurn(s.turns.vals[k]))
    && (forall k :: k in s.tools.vals ==> !StaleTool(s.tools.vals[k]))
    && (forall k :: k in s.jobs.vals ==> !StaleJob(s.jobs.vals[k]))
  }

  /** From any replayed state, recovery leaves no running turn, started tool or
      unfinished job, and changes exactly those entries. */
  lemma RecoveryClosesStaleWork(s: State, n: int, stamps: Stamps)
    requires DictsFit(s)
    ensures var r := Fold(s, Recovery(s, n, stamps));
            && r == s.(turns := r.turns, tools := r.tools, jobs := r.jobs)
            && TurnsClosed(s.turns, r.turns, StaleTurns(s.turns))
            && ToolsClosed(s.tools, r.tools, StaleTools(s.tools))
            && JobsClosed(s.jobs, r.jobs, StaleJobs(s.jobs))
            && Quiet(r)
  {
    hide *;
    ClosedDicts(s, n, stamps);
    RecoveryIsClosing(s, n, stamps);
    FoldClosings(s, Recovery(s, n, stamps));
    ClosedLeavesNoStale(s, Fold(s, Recovery(s, n, stamps)));
  }

  lemma RecoveryIsClosing(s: State, n: int, stamps: Stamps)
    ensures forall i :: 0 <= i < |Recovery(s, n, stamps)| ==> Closing(Recovery(s, n, stamps)[i])
  {
    hide StaleTurns, StaleTools, StaleJobs;
  }

  lemma ClosedDicts(s: State, n: int, stamps: Stamps)
    requires DictsFit(s)
    ensures var turns, tools, jobs := StaleTurns(s.turns), StaleTools(s.tools), StaleJobs(s.jobs);
            var events := Recovery(s, n, stamps);
            && TurnsClosed(s.turns, FoldDict(s.turns, events, NextTurns), turns)
            && ToolsClosed(s.tools, FoldDict(s.tools, events, NextTools), tools)
            && JobsClosed(s.jobs, FoldDict(s.jobs, events, NextJobs), jobs)
  {
    hide StaleTurns, StaleTools, StaleJobs, NextTurns, NextTools, NextJobs, TurnsClosed, ToolsClosed, JobsClosed,
      FoldDict, Distinct, Ignores;
    var turns, tools, jobs := StaleTurns(s.turns), StaleTools(s.tools), StaleJobs(s.jobs);
    var T := TurnClosings(s.turns, turns, n, 0, stamps);
    var U := ToolClosings(s.tools, tools, n, |turns|, stamps);
    var J := JobClosings(s.jobs, jobs, n, |turns| + |tools|, stamps);
    StaleDistinct(s);
    TurnClosingsClose(s.turns, turns, n, 0, stamps);
    ToolClosingsClose(s.tools, tools, n, |turns|, stamps);
    JobClosingsClose(s.jobs, jobs, n, |turns| + |tools|, stamps);
    EachFoldSkips(s, T, U, J);
  }

  lemma EachFoldSkips(s: State, T: seq<Event>, U: seq<Event>, J: seq<Event>)
    requires forall i :: 0 <= i < |T| ==> T[i].body.TurnEnded?
    requires forall i :: 0 <= i < |U| ==> U[i].body.ToolRecovered?
    requires forall i :: 0 <= i < |J| ==> J[i].body.JobEnded?
    ensures FoldDict(s.turns, T + U + J, NextTurns) == FoldDict(s.turns, T, NextTurns)
    ensures FoldDict(s.tools, T + U + J, NextTools) == FoldDict(s.tools, U, NextTools)
    ensures FoldDict(s.jobs, T + U + J, NextJobs) == FoldDict(s.jobs, J, NextJobs)
  {
    hide FoldDict;
    ClosingsIgnored(T, U, J);
    FoldDictSkips(s.turns, [], T, U + J, NextTurns);
    FoldDictSkips(s.tools, T, U, J, NextTools);
    FoldDictSkips(s.jobs, T + U, J, [], NextJobs);
    Regroup(T, U, J);
  }

  lemma Regroup<T>(a: seq<T>, b: seq<T>, c: seq<T>)
    ensures a + b + c == [] + a + (b + c) == a + b + c + []
  {
  }

  lemma ClosingsIgnored(T: seq<Event>, U: seq<Event>, J: seq<Event>)
    requires forall i :: 0 <= i < |T| ==> T[i].body.TurnEnded?
    requires forall i :: 0 <= i < |U| ==> U[i].body.ToolRecovered?
    requires forall i :: 0 <= i < |J| ==> J[i].body.JobEnded?
    ensures Ignores(U + J, NextTurns) && Ignores([], NextTurns)
    ensures Ignores(T, NextTools) && Ignores(J, NextTools)
    ensures Ignores(T + U, NextJobs) && Ignores([], NextJobs)
  {
  }

  lemma ClosedLeavesNoStale(s: State, r: State)
    requires DictsFit(s)
    requires TurnsClosed(s.turns, r.turns, StaleTurns(s.turns))
    requires ToolsClosed(s.tools, r.tools, StaleTools(s.tools))
    requires JobsClosed(s.jobs, r.jobs, StaleJobs(s.jobs))
    ensures Quiet(r)
  {
    hide StaleTurns, StaleTools, StaleJobs;
    forall k | k in r.turns.vals ensures !StaleTurn(r.turns.vals[k]) { assert k in s.turns.vals; }
    forall k | k in r.tools.vals ensures !StaleTool(r.tools.vals[k]) { assert k in s.tools.vals; }
    forall k | k in r.jobs.vals ensures !StaleJob(r.jobs.vals[k]) { assert k in s.jobs.vals; }
  }

  lemma StaleDistinct(s: State)
    requires DictsFit(s)
    ensures Distinct(StaleTurns(s.turns)) && Distinct(StaleTools(s.tools)) && Distinct(StaleJobs(s.jobs))
  {
    FilterDistinct(s.turns.keys, k => k in s.turns.vals && StaleTurn(s.turns.vals[k]));
    FilterDistinct(s.tools.keys, k => k in s.tools.vals && StaleTool(s.tools.vals[k]));
    FilterDistinct(s.jobs.keys, k => k in s.jobs.vals && StaleJob(s.jobs.vals[k]));
  }

  lemma QuietNeedsNoRecovery(s: State, n: int, stamps: Stamps)
    requires Quiet(s)
    ensures Recovery(s, n, stamps) == []
  {
    var turns, tools, jobs := StaleTurns(s.turns), StaleTools(s.tools), StaleJobs(s.jobs);
    hide StaleTurns, StaleTools, StaleJobs;
    assert |turns| > 0 ==> turns[0] in s.turns.vals;
    assert |tools| > 0 ==> tools[0] in s.tools.vals;
    assert |jobs| > 0 ==> jobs[0] in s.jobs.vals;
  }

  lemma RecoveryIsIdempotent(s: State, n: int, stamps: Stamps, m: int, stamps': Stamps)
    requires DictsFit(s)
    ensures Recovery(Fold(s, Recovery(s, n, stamps)), m, stamps') == []
  {
    RecoveryClosesStaleWork(s, n, stamps);
    QuietNeedsNoRecovery(Fold(s, Recovery(s, n, stamps)), m, stamps');
  }

  // ---------------------------------------------------------------- the live session

  /** Sequence numbers are 1..n. */
  ghost predicate Numbered(journal: seq<Event>) {
    forall i :: 0 <= i < |journal| ==> journal[i].seqno == i + 1
  }

  lemma RecoveryNumbers(s: State, journal: seq<Event>, stamps: Stamps)
    requires Numbered(journal)
    ensures Numbered(journal + Recovery(s, NextSeq(journal), stamps))
  {
    var n, r := NextSeq(journal), Recovery(s, NextSeq(journal), stamps);
    hide StaleTurns, StaleTools, StaleJobs;
    forall i | 0 <= i < |r| ensures r[i].seqno == n + i {
    }
  }

  lemma NumberedNext(journal: seq<Event>, e: Event)
    requires Numbered(journal) && e.seqno == NextSeq(journal)
    ensures Numbered(journal + [e])
  {
  }

  lemma ApplyKeepsTurns(s: State, e: Event)
    ensures forall k :: k in s.turns.vals ==> k in Apply(s, e).turns.vals
  {
    hide NextTools, NextJobs, NextAnchors;
  }

  lemma NumberedPrefix(a: seq<Event>, b: seq<Event>)
    ensures Numbered(a + b) ==> Numbered(a)
  {
    assert forall i :: 0 <= i < |a| ==> (a + b)[i] == a[i];
  }

  lemma {:induction false} FoldKeepsTurns(s: State, events: seq<Event>)
    ensures forall k :: k in s.turns.vals ==> k in Fold(s, events).turns.vals
    decreases |events|
  {
    if events != [] {
      FoldKeepsTurns(s, events[..|events| - 1]);
    }
  }

  // ---------------------------------------------------------------- journals that sessions write

  /** What a session writes at once: one event, or the events of a recovery. */
  datatype Act =
    | Emits(turnId: Option<Id>, body: Body, toolCallId: Option<Id>, stamp: (Id, Time))
    | Recovers(stamps: Stamps)

  /** One write of a session, complete or cut off by the end of its process. */
  datatype Write = Write(act: Act, cut: Option<nat>)

  /** The only event with a cursor is made with one that does not pass the items. */
  function Clamped(body: Body, items: nat): (r: Body) {
    if body.ContextArchived? && body.cursor > items then body.(cursor := items) else body
  }

  /** The archive cursor stays within the items. */
  predicate CursorWithin(s: State) {
    s.archivedCursor <= |s.items|
  }

  /** What holds of every journal that sessions write. */
  ghost predicate Proper(preset: string, journal: seq<Event>) {
    Numbered(journal) && CursorWithin(Fold(Initial(preset), journal))
  }

  lemma ApplyKeepsCursor(s: State, e: Event)
    requires CursorWithin(s) && (e.body.ContextArchived? ==> e.body.cursor <= |s.items|)
    ensures CursorWithin(Apply(s, e))
  {
    hide NextTurns, NextTools, NextJobs, NextAnchors;
  }

  /** The events of a write, made from the journal the session has in memory. */
  function Batch(preset: string, journal: seq<Event>, act: Act): (events: seq<Event>) {
    match act
    case Emits(turnId, body, toolCallId, stamp) =>
      var items := Fold(Initial(preset), journal).items;
      [Event(NextSeq(journal), stamp.0, turnId, stamp.1, toolCallId, Clamped(body, |items|))]
    case Recovers(stamps) => Recovery(Fold(Initial(preset), journal), NextSeq(journal), stamps)
  }

  function Operation(preset: string, journal: seq<Event>, w: Write): (op: JournalFile.Operation<Event>) {
    var batch := Batch(preset, journal, w.act);
    if w.cut.None? then JournalFile.AppendBatch(batch) else JournalFile.CrashedAppend(batch, w.cut.value)
  }

  /** The writes of one session after another: behind a cut the next process has what
      became durable, and goes on from there. */
  function Operations(c: JournalFile.Codec<Event>, preset: string, journal: seq<Event>, writes: seq<Write>)
    : (ops: seq<JournalFile.Operation<Event>>)
    decreases |writes|
  {
    if writes == [] then []
    else
      var op := Operation(preset, journal, writes[0]);
      [op] + Operations(c, preset, journal + op.Durable(c), writes[1..])
  }

  lemma BatchNumbers(preset: string, journal: seq<Event>, act: Act)
    requires Numbered(journal)
    ensures Numbered(journal + Batch(preset, journal, act))
  {
    hide Recovery, Fold;
    if act.Recovers? { RecoveryNumbers(Fold(Initial(preset), journal), journal, act.stamps); }
  }

  lemma DurableIsPrefix(c: JournalFile.Codec<Event>, op: JournalFile.Operation<Event>)
    ensures |op.Durable(c)| <= |op.batch| && op.Durable(c) == op.batch[..|op.Durable(c)|]
  {
    hide JournalFile.Render, JournalFile.Survivors;
  }

  lemma NumberedPart(journal: seq<Event>, batch: seq<Event>, n: nat)
    requires n <= |batch| && Numbered(journal + batch)
    ensures Numbered(journal + batch[..n])
  {
    assert forall i :: 0 <= i < |journal + batch[..n]| ==> (journal + batch)[i] == (journal + batch[..n])[i];
  }

  lemma DurableNumbers(c: JournalFile.Codec<Event>, preset: string, journal: seq<Event>, w: Write)
    requires Numbered(journal)
    ensures Numbered(journal + Operation(preset, journal, w).Durable(c))
  {
    hide Numbered, Batch, JournalFile.Operation.Durable;
    var op := Operation(preset, journal, w);
    BatchNumbers(preset, journal, w.act);
    DurableIsPrefix(c, op);
    NumberedPart(journal, op.batch, |op.Durable(c)|);
  }

  lemma DurableCursor(c: JournalFile.Codec<Event>, preset: string, journal: seq<Event>, w: Write)
    requires CursorWithin(Fold(Initial(preset), journal))
    ensures CursorWithin(Fold(Initial(preset), journal + Operation(preset, journal, w).Durable(c)))
  {
    var op, s := Operation(preset, journal, w), Fold(Initial(preset), journal);
    var durable := op.Durable(c);
    DurableIsPrefix(c, op);
    hide JournalFile.Operation.Durable, Recovery;
    match w.act
    case Emits(_, _, _, _) =>
      if durable == [] {
        assert journal + durable == journal;
      } else {
        var e := op.batch[0];
        assert durable == [e];
        FoldOne(Initial(preset), journal, e);
        hide Fold;
        ApplyKeepsCursor(s, e);
      }
    case Recovers(stamps) =>
      RecoveryIsClosing(s, NextSeq(journal), stamps);
      FoldConcat(Initial(preset), journal, durable);
      hide Fold, Closing;
      FoldClosings(s, durable);
  }

  lemma DurableProper(c: JournalFile.Codec<Event>, preset: string, journal: seq<Event>, w: Write)
    requires Proper(preset, journal)
    ensures Proper(preset, journal + Operation(preset, journal, w).Durable(c))
  {
    hide Numbered, Fold, Operation;
    DurableNumbers(c, preset, journal, w);
    DurableCursor(c, preset, journal, w);
  }

  lemma {:induction false} WritesProper(c: JournalFile.Codec<Event>, preset: string, journal: seq<Event>,
                                        writes: seq<Write>)
    requires Proper(preset, journal)
    ensures Proper(preset, journal + JournalFile.Contributions(c, Operations(c, preset, journal, writes)))
    decreases |writes|
  {
    hide Proper, Operation;
    if writes == [] {
      assert journal + [] == journal;
    } else {
      var op := Operation(preset, journal, writes[0]);
      DurableProper(c, preset, journal, writes[0]);
      WritesProper(c, preset, journal + op.Durable(c), writes[1..]);
      var rest := Operations(c, preset, journal + op.Durable(c), writes[1..]);
      assert Operations(c, preset, journal, writes) == [op] + rest;
      assert ([op] + rest)[1..] == rest;
      hide Operations;
      assert JournalFile.Contributions(c, [op] + rest) == op.Durable(c) + JournalFile.Contributions(c, rest);
      hide JournalFile.Contributions;
      Associative(journal, op.Durable(c), JournalFile.Contributions(c, rest));
    }
  }

  /** Whatever sessions write to a journal, one process after another and each killed
      wherever it may be, the journal that the next one loads is numbered 1..n and leaves
      the archive cursor within the items; it loads unless some write was cut inside a
      character. */
  lemma JournalsAreProper(c: JournalFile.Codec<Event>, preset: string, file: seq<JournalFile.Byte>,
                          writes: seq<Write>)
    requires JournalFile.Lawful(c) && JournalFile.Replay(c, file).Ok?
    requires Proper(preset, JournalFile.Replay(c, file).value)
    ensures var journal := JournalFile.Replay(c, file).value;
            var ops := Operations(c, preset, journal, writes);
            var loaded := JournalFile.Load(c, JournalFile.Run(c, file, ops));
            && (loaded.Ok? <==> JournalFile.CutsOnCharacters(c, ops))
            && (loaded.Ok? ==>
                  && loaded.value == journal + JournalFile.Contributions(c, ops)
                  && Proper(preset, loaded.value))
  {
    hide JournalFile.Lawful, JournalFile.Replay, JournalFile.Run, JournalFile.Load, JournalFile.CutsOnCharacters;
    hide JournalFile.Contributions, Operations, Proper;
    var journal := JournalFile.Replay(c, file).value;
    JournalFile.RunReplay(c, file, Operations(c, preset, journal, writes));
    WritesProper(c, preset, journal, writes);
  }

  /** What loading a session from its journal file gives. */
  function Loaded(codec: JournalFile.Codec<Event>, file: seq<JournalFile.Byte>, preset: string): (r: Result<State>) {
    match JournalFile.Replay(codec, file)
    case Err => Err
    case Ok(events) => Ok(Fold(Initial(preset), events))
  }

  /** Events about turns, tool executions and jobs. */
  predicate ChangesTables(body: Body) {
    || body.TurnBegan? || body.TurnEnded? || body.ToolBegan? || body.ToolEnded? || body.ToolRecovered?
    || body.JobWasSubmitted? || body.JobBegan? || body.JobEnded?
  }

  /** An event changes at most the one table that it is about. */
  lemma OtherTables(s: State, e: Event)
    ensures !e.body.MessageAppended? ==>
              NextItems(s.items, e) == s.items && NextAnchors(s.anchors, |s.items|, e) == s.anchors
    ensures !(e.body.TurnBegan? || e.body.TurnEnded?) ==> NextTurns(s.turns, e) == s.turns
    ensures !(e.body.ToolBegan? || e.body.ToolEnded? || e.body.ToolRecovered?) ==> NextTools(s.tools, e) == s.tools
    ensures !(e.body.JobWasSubmitted? || e.body.JobBegan? || e.body.JobEnded?) ==> NextJobs(s.jobs, e) == s.jobs
  {
  }

  class LiveSession {
    const preset0: string
    const file: JournalFile.Journal<Event>
    var items: seq<Message>
    var archivedSummary: Option<string>
    var archivedCursor: nat
    var compressions: nat
    var preset: string
    var plan: Option<string>
    var cacheUsage: Option<CacheUsage>
    var tokenAnchor: Option<string>
    var turns: Dict<Turn>
    var tools: Dict<ToolExecution>
    var jobs: Dict<JobExecution>
    var anchors: seq<UserAnchor>
    var journal: seq<Event>
    var currentTurn: Option<Id>

    function View(): (s: State)
      reads this
    {
      State(items, archivedSummary, archivedCursor, compressions, preset, plan, cacheUsage, tokenAnchor,
            turns, tools, jobs, anchors)
    }

    /** Live state, journal and file agree, and the current turn, unless its id is
        empty, is one of the turns. */
    ghost predicate InStep()
      reads this, file
    {
      && JournalFile.Lawful(file.codec)
      && View() == Fold(Initial(preset0), journal)
      && JournalFile.Clean(file.data)
      && JournalFile.Replay(file.codec, file.data) == Ok(journal)
      && (currentTurn.Some? && currentTurn.value != "" ==> currentTurn.value in turns.vals)
    }

    /** Every session on a journal that sessions wrote is in this state. */
    ghost predicate Valid()
      reads this, file
    {
      InStep() && Numbered(journal) && CursorWithin(View())
    }

    constructor (preset: string, file: JournalFile.Journal<Event>)
      ensures this.file == file && preset0 == preset && View() == Initial(preset)
      ensures journal == [] && currentTurn == None
      ensures JournalFile.Lawful(file.codec) && file.data == [] ==> Valid()
    {
      this.preset0, this.file, this.preset := preset, file, preset;
      items, archivedSummary, archivedCursor, compressions, plan := [], None, 0, 0, None;
      cacheUsage, tokenAnchor, anchors := None, None, [];
      turns, tools, jobs := Dict([], map[]), Dict([], map[]), Dict([], map[]);
      journal, currentTurn := [], None;
    }

    method ApplyEvent(e: Event)
      modifies this
      ensures View() == Apply(old(View()), e)
      ensures journal == old(journal) && currentTurn == old(currentTurn)
    {
      OtherTables(View(), e);
      hide NextTurns, NextTools, NextJobs, NextItems, NextAnchors;
      if e.body.TurnBegan? || e.body.TurnEnded? {
        ApplyTurn(e);
      } else if e.body.ToolBegan? || e.body.ToolEnded? || e.body.ToolRecovered? {
        ApplyTool(e);
      } else if e.body.JobWasSubmitted? || e.body.JobBegan? || e.body.JobEnded? {
        ApplyJob(e);
      } else if e.body.MessageAppended? {
        ApplyMessage(e);
      } else {
        ApplyFields(e);
      }
    }

    method ApplyMessage(e: Event)
      requires e.body.MessageAppended?
      modifies this`items, this`anchors
      ensures items == NextItems(old(items), e) && anchors == NextAnchors(old(anchors), |old(items)|, e)
    {
      var message, itemIndex := e.body.message, |items|;
      items := items + [message];
      if e.turnId.Some? && message.UserAuthored() {
        var timestamp := if message.timestamp.Some? then message.timestamp.value else e.time;
        anchors := anchors + [UserAnchor(e.turnId.value, message.content, timestamp, e.body.source, itemIndex)];
      }
    }

    /** Events that set fields of the session itself. */
    method ApplyFields(e: Event)
      requires !e.body.MessageAppended? && !ChangesTables(e.body)
      modifies this
      ensures View() == Apply(old(View()), e)
      ensures journal == old(journal) && currentTurn == old(currentTurn)
    {
      OtherTables(View(), e);
      hide NextTurns, NextTools, NextJobs;
      match e.body {
        case ModelCompleted(usage, anchor) =>
          tokenAnchor := anchor;
          cacheUsage := AddUsage(cacheUsage, usage);
        case CompressionCompleted(usage) =>
          cacheUsage := AddUsage(cacheUsage, usage);
        case ContextArchived(summary, cursor) =>
          tokenAnchor := None;
          archivedSummary := summary;
          archivedCursor := cursor;
          compressions := compressions + 1;
        case PresetChanged(value) =>
          preset := value;
        case PlanUpdated(value) =>
          plan := Some(value);
        case _ =>
      }
    }

    method ApplyTurn(e: Event)
      modifies this`turns
      ensures turns == NextTurns(old(turns), e)
    {
      if !Truthy(e.turnId) {
        return;
      }
      var id := e.turnId.value;
      match e.body {
        case TurnBegan =>
          turns := turns.Put(id, Turn(id, TurnRunning, Some(e.time), None, None));
        case TurnEnded(status, error) =>
          if id !in turns.vals {
            turns := turns.Put(id, Turn(id, TurnUnknown, None, None, None));
          }
          turns := turns.Put(id, turns.vals[id].(status := status, finishedAt := Some(e.time), error := error));
        case _ =>
      }
    }

    method ApplyTool(e: Event)
      modifies this`tools
      ensures tools == NextTools(old(tools), e)
    {
      if !Truthy(e.toolCallId) {
        return;
      }
      var id := e.toolCallId.value;
      match e.body {
        case ToolBegan(name, arguments) =>
          tools := tools.Put(id, ToolExecution(id, e.turnId, name, arguments, ToolStarted, Some(e.time), None, None));
        case ToolEnded(status, name, error) =>
          if id !in tools.vals {
            tools := tools.Put(id, ToolExecution(id, e.turnId, name, "", ToolUnknown, None, None, None));
          }
          tools := tools.Put(id, tools.vals[id].(status := status, completedAt := Some(e.time), error := error));
        case ToolRecovered =>
          if id in tools.vals {
            tools := tools.Put(id, tools.vals[id].(status := ToolUnknown, completedAt := Some(e.time)));
          }
        case _ =>
      }
    }

    method ApplyJob(e: Event)
      modifies this`jobs
      ensures jobs == NextJobs(old(jobs), e)
    {
      if e.turnId.None? {
        return;
      }
      var turnId := e.turnId.value;
      match e.body {
        case JobWasSubmitted(id, kind, details) =>
          jobs := jobs.Put(id, JobExecution(id, turnId, kind, JobSubmitted, Some(e.time), None, None, None, details,
                                            Some(0), None, None));
        case JobBegan(id, kind) =>
          if id !in jobs.vals {
            jobs := jobs.Put(id, JobOrNew(jobs, id, turnId, kind, JobRunning));
          }
          jobs := jobs.Put(id, jobs.vals[id].(status := JobRunning, startedAt := Some(e.time)));
        case JobEnded(id, kind, status, elapsed, summary, progress, error) =>
          if id !in jobs.vals {
            jobs := jobs.Put(id, JobOrNew(jobs, id, turnId, kind, JobInterrupted));
          }
          jobs := jobs.Put(id, jobs.vals[id].(status := status, completedAt := Some(e.time), elapsed := elapsed,
                                              summary := summary, progress := progress, error := error));
        case _ =>
      }
    }

    /** Write through, then record, then apply. */
    method Emit(turnId: Option<Id>, body: Body, toolCallId: Option<Id>, stamp: (Id, Time)) returns (e: Event)
      requires Valid() && (body.ContextArchived? ==> body.cursor <= |items|)
      modifies this, file
      ensures Valid()
      ensures e == Event(NextSeq(old(journal)), stamp.0, turnId, stamp.1, toolCallId, body)
      ensures journal == old(journal) + [e]
      ensures View() == Apply(old(View()), e)
      ensures currentTurn == old(currentTurn)
      ensures forall k :: k in old(turns.vals) ==> k in turns.vals
    {
      e := Event(NextSeq(journal), stamp.0, turnId, stamp.1, toolCallId, body);
      NumberedNext(journal, e);
      ApplyKeepsTurns(View(), e);
      ApplyKeepsCursor(View(), e);
      FoldOne(Initial(preset0), journal, e);
      hide Fold, Apply, Numbered, NextSeq, JournalFile.Lawful, JournalFile.Replay, JournalFile.Clean,
           JournalFile.Render;
      Durable([e]);
      file.WriteEvents([e]);
      journal := journal + [e];
      ApplyEvent(e);
    }

    /** Loading the file now, or once further events are written, gives the live state
        with those events applied. */
    lemma Durable(events: seq<Event>)
      requires InStep()
      ensures JournalFile.Clean(file.data + JournalFile.Render(file.codec, events))
      ensures JournalFile.Replay(file.codec, file.data + JournalFile.Render(file.codec, events)) == Ok(journal + events)
      ensures Loaded(file.codec, file.data + JournalFile.Render(file.codec, events), preset0)
              == Ok(Fold(View(), events))
    {
      FoldConcat(Initial(preset0), journal, events);
      hide Fold, Numbered;
      var text := JournalFile.Render(file.codec, events);
      JournalFile.RenderLawful(file.codec, events);
      JournalFile.ReplayConcat(file.codec, file.data, text);
      if text != [] { assert Last(file.data + text) == Last(text); }
    }

    /** The current turn is one of the turns unless it was begun with an empty id, which no
        event can put among them. */
    lemma CurrentTurnIsListed()
      requires InStep()
      ensures currentTurn.Some? ==> (currentTurn.value in turns.keys <==> currentTurn.value != "")
    {
      DictsFitAlways(preset0, journal);
    }

    method Recover(stamps: Stamps) returns (recovered: seq<Event>)
      requires InStep()
      modifies this, file
      ensures InStep()
      ensures recovered == Recovery(old(View()), NextSeq(old(journal)), stamps)
      ensures journal == old(journal) + recovered
      ensures Numbered(old(journal)) ==> Numbered(journal)
      ensures View() == Fold(old(View()), recovered)
      ensures View() == old(View()).(turns := turns, tools := tools, jobs := jobs)
      ensures currentTurn == old(currentTurn)
      ensures Quiet(View())
    {
      hide Fold, Recovery, Quiet, Numbered, DictsFit, JournalFile.Lawful, JournalFile.Replay, JournalFile.Clean,
           JournalFile.Render;
      assert DictsFit(View()) by { DictsFitAlways(preset0, journal); }
      recovered := Recovery(View(), NextSeq(journal), stamps);
      ghost var closed := Fold(View(), recovered);
      assert Quiet(closed)
             && closed == View().(turns := closed.turns, tools := closed.tools, jobs := closed.jobs) by {
        RecoveryClosesStaleWork(View(), NextSeq(journal), stamps);
      }
      assert Numbered(journal) ==> Numbered(journal + recovered) by {
        if Numbered(journal) { RecoveryNumbers(View(), journal, stamps); }
      }
      FoldKeepsTurns(View(), recovered);
      Durable(recovered);
      FoldConcat(Initial(preset0), journal, recovered);
      file.WriteEvents(recovered);
      journal := journal + recovered;
      ReplayAll(recovered);
    }

    method ReplayAll(events: seq<Event>)
      modifies this
      ensures View() == Fold(old(View()), events)
      ensures journal == old(journal) && currentTurn == old(currentTurn)
    {
      for i := 0 to |events|
        invariant View() == Fold(old(View()), events[..i])
        invariant journal == old(journal) && currentTurn == old(currentTurn)
      {
        FoldOne(old(View()), events[..i], events[i]);
        assert events[..i + 1] == events[..i] + [events[i]];
        ApplyEvent(events[i]);
      }
      assert events[..|events|] == events;
    }

    /** A client id that is already known never reaches an old turn. */
    method BeginTurn(requested: Option<Id>, uuid: Id, stamp: (Id, Time)) returns (turnId: Id)
      requires Valid()
      requires uuid != "" && uuid !in turns.vals
      modifies this, file
      ensures Valid()
      ensures turnId !in old(turns.vals)
      ensures requested.Some? && requested.value !in old(turns.vals) ==> turnId == requested.value
      ensures currentTurn == Some(turnId)
      ensures forall k :: k in old(turns.vals) ==> k in turns.vals && turns.vals[k] == old(turns.vals[k])
      ensures turnId != "" ==> turnId in turns.vals && StaleTurn(turns.vals[turnId])
      ensures items == old(items) && tools == old(tools) && jobs == old(jobs) && anchors == old(anchors)
      ensures journal == old(journal) + [Event(NextSeq(old(journal)), stamp.0, Some(turnId), stamp.1, None, TurnBegan)]
    {
      hide Fold, Numbered, JournalFile.Lawful, JournalFile.Replay, JournalFile.Clean;
      turnId := if requested.None? || requested.value in turns.vals then uuid else requested.value;
      var e := Emit(Some(turnId), TurnBegan, None, stamp);
      currentTurn := Some(turnId);
    }

    method FinishTurn(status: TurnStatus, requested: Option<Id>, error: Option<string>, stamp: (Id, Time))
      requires Valid()
      modifies this, file
      ensures Valid()
      ensures var id := if Truthy(requested) then requested else old(currentTurn);
              if id.None? then View() == old(View()) && journal == old(journal) && currentTurn == old(currentTurn)
              else
                && (id.value != "" ==> id.value in turns.vals && turns.vals[id.value].status == status
                                       && turns.vals[id.value].error == error)
                && (forall k :: k in old(turns.vals) && k != id.value ==>
                    k in turns.vals && turns.vals[k] == old(turns.vals[k]))
                && currentTurn == (if id == old(currentTurn) then None else old(currentTurn))
                && journal == old(journal)
                              + [Event(NextSeq(old(journal)), stamp.0, id, stamp.1, None, TurnEnded(status, error))]
                && View().(turns := old(turns)) == old(View())
    {
      hide Fold, Numbered, JournalFile.Lawful, JournalFile.Replay, JournalFile.Clean;
      var id := if Truthy(requested) then requested else currentTurn;
      if id.None? {
        return;
      }
      var e := Emit(id, TurnEnded(status, error), None, stamp);
      if id == currentTurn {
        currentTurn := None;
      }
    }

    /** Appends one message; a user-authored message of a turn also gets the anchor
        that points at it. */
    method AddItem(message: Message, source: Source, stamp: (Id, Time))
      requires Valid()
      modifies this, file
      ensures Valid()
      ensures items == old(items) + [message]
      ensures if old(currentTurn).Some? && message.UserAuthored()
              then |anchors| == |old(anchors)| + 1 && anchors[..|old(anchors)|] == old(anchors)
                   && Last(anchors).itemIndex == |items| - 1 && Last(anchors).turnId == old(currentTurn).value
                   && Last(anchors).content == message.content && Last(anchors).source == source
              else anchors == old(anchors)
      ensures View().(items := old(items), anchors := old(anchors)) == old(View())
      ensures currentTurn == old(currentTurn)
      ensures journal == old(journal)
                         + [Event(NextSeq(old(journal)), stamp.0, currentTurn, stamp.1, message.toolCallId,
                                  MessageAppended(message, source))]
    {
      hide Fold, Numbered, JournalFile.Lawful, JournalFile.Replay, JournalFile.Clean;
      var e := Emit(currentTurn, MessageAppended(message, source), message.toolCallId, stamp);
    }

    method SetArchivedSummary(summary: string, cursor: int, stamp: (Id, Time))
      requires Valid()
      modifies this, file
      ensures Valid()
      ensures archivedCursor == if cursor < 0 then 0 else if cursor > |items| then |items| else cursor
      ensures View() == old(View()).(archivedSummary := Some(summary), archivedCursor := archivedCursor,
                                     compressions := old(compressions) + 1, tokenAnchor := None)
      ensures currentTurn == old(currentTurn)
      ensures journal == old(journal)
                         + [Event(NextSeq(old(journal)), stamp.0, currentTurn, stamp.1, None,
                                  ContextArchived(Some(summary), archivedCursor))]
    {
      hide Fold, Numbered, JournalFile.Lawful, JournalFile.Replay, JournalFile.Clean;
      var clamped: nat := if cursor < 0 then 0 else if cursor > |items| then |items| else cursor;
      var e := Emit(currentTurn, ContextArchived(Some(summary), clamped), None, stamp);
    }
  }

  /** Opening a journal file: repair, replay, then attach it and persist recovery.
      The file then holds the replayed events followed by the recovery facts. */
  method Open(file: JournalFile.Journal<Event>, preset: string, stamps: Stamps) returns (s: Result<LiveSession>)
    requires JournalFile.Lawful(file.codec)
    modifies file
    ensures s.Ok? <==> JournalFile.Replay(file.codec, old(file.data)).Ok?
    ensures s.Ok? ==>
      && s.value.InStep() && fresh(s.value) && s.value.file == file
      && var events := JournalFile.Replay(file.codec, old(file.data)).value;
      && s.value.journal == events + Recovery(Fold(Initial(preset), events), NextSeq(events), stamps)
      && (s.value.Valid() <==> Proper(preset, events))
      && Quiet(s.value.View())
  {
    var repaired := file.PrepareAppend();
    JournalFile.PrepareKeepsReplay(file.codec, old(file.data));
    if !repaired {
      return Err;
    }
    var records := file.ReadRecords();
    if records.Err? {
      return Err;
    }
    var live := new LiveSession(preset, file);
    hide Quiet, Numbered, Recovery, Apply;
    live.ReplayAll(records.value);
    live.journal := records.value;
    var recovered := live.Recover(stamps);
    NumberedPrefix(records.value, recovered);
    return Ok(live);
  }
}
