/** What a replayed session says of the journal it was replayed from, told by the events
    alone: each part of an entry comes from the last event that speaks of it. */
module Replay {
  import opened Common
  import opened Messages
  import opened Session

  // ---------------------------------------------------------------- events by position

  /** The last event that satisfies `p`. */
  function LastOf(events: seq<Event>, p: Event -> bool): (r: Option<Event>)
    ensures r.Some? ==> p(r.value) && r.value in events
    ensures r.None? ==> forall e :: e in events ==> !p(e)
    decreases |events|
  {
    if events == [] then None
    else if p(Last(events)) then Some(Last(events))
    else LastOf(events[..|events| - 1], p)
  }

  function FirstOf(events: seq<Event>, p: Event -> bool): (r: Option<Event>)
    ensures r.Some? ==> p(r.value) && r.value in events
    ensures r.None? ==> forall e :: e in events ==> !p(e)
  {
    if events == [] then None else if p(events[0]) then Some(events[0]) else FirstOf(events[1..], p)
  }

  lemma LastSnoc(events: seq<Event>, e: Event, p: Event -> bool)
    ensures LastOf(events + [e], p) == if p(e) then Some(e) else LastOf(events, p)
  {
    assert (events + [e])[..|events|] == events;
  }

  lemma {:induction false} FirstSnoc(events: seq<Event>, e: Event, p: Event -> bool)
    ensures FirstOf(events + [e], p) ==
            if FirstOf(events, p).Some? then FirstOf(events, p) else if p(e) then Some(e) else None
  {
    if events == [] {
      assert (events + [e])[1..] == [];
    } else {
      assert (events + [e])[0] == events[0] && (events + [e])[1..] == events[1..] + [e];
      FirstSnoc(events[1..], e, p);
    }
  }

  /** Nothing behind the last one satisfies `p`, and nothing in front of the first. */
  lemma {:induction false} LastIsLast(events: seq<Event>, p: Event -> bool)
    requires LastOf(events, p).Some?
    ensures exists k :: 0 <= k < |events| && events[k] == LastOf(events, p).value
                        && forall j :: k < j < |events| ==> !p(events[j])
    decreases |events|
  {
    if p(Last(events)) {
      assert events[|events| - 1] == LastOf(events, p).value;
    } else {
      var front := events[..|events| - 1];
      LastIsLast(front, p);
      var found := LastOf(front, p).value;
      hide LastOf;
      var k :| 0 <= k < |front| && front[k] == found && forall j :: k < j < |front| ==> !p(front[j]);
      assert events[k] == found;
      assert forall j :: k < j < |events| ==> events[j] == if j < |front| then front[j] else Last(events);
    }
  }

  lemma {:induction false} FirstIsFirst(events: seq<Event>, p: Event -> bool)
    requires FirstOf(events, p).Some?
    ensures exists k :: 0 <= k < |events| && events[k] == FirstOf(events, p).value
                        && forall j :: 0 <= j < k ==> !p(events[j])
  {
    if !p(events[0]) {
      var rest := events[1..];
      FirstIsFirst(rest, p);
      var k :| 0 <= k < |rest| && rest[k] == FirstOf(rest, p).value && forall j :: 0 <= j < k ==> !p(rest[j]);
      assert events[k + 1] == FirstOf(events, p).value;
      assert forall j :: 0 <= j < k + 1 ==> events[j] == if j == 0 then events[0] else rest[j - 1];
    }
  }

  // ---------------------------------------------------------------- jobs

  /** Submissions, starts and ends of one job inside a turn. */
  function JobEvents(id: Id, submissions: bool, starts: bool, ends: bool): (p: Event -> bool) {
    (e: Event) =>
      e.turnId.Some?
      && match e.body
         case JobWasSubmitted(jobId, _, _) => submissions && jobId == id
         case JobBegan(jobId, _) => starts && jobId == id
         case JobEnded(jobId, _, _, _, _, _, _) => ends && jobId == id
         case _ => false
  }

  function KindOf(e: Event): (kind: string) {
    match e.body
    case JobWasSubmitted(_, kind, _) => kind
    case JobBegan(_, kind) => kind
    case JobEnded(_, kind, _, _, _, _, _) => kind
    case _ => ""
  }

  /** The status is that of the last event; when it was started is told by the last start
      behind the last submission; how it ended by the last end behind it; what it is by the
      last submission, or without one by the first event about it. */
  ghost predicate JobTold(events: seq<Event>, id: Id, jobs: map<Id, JobExecution>) {
    var any := LastOf(events, JobEvents(id, true, true, true));
    && (id in jobs <==> any.Some?)
    && (any.Some? ==>
          var j := jobs[id];
          && j.status == (if any.value.body.JobWasSubmitted? then JobSubmitted
                          else if any.value.body.JobBegan? then JobRunning
                          else if any.value.body.JobEnded? then any.value.body.jobStatus else j.status)
          && StartTold(LastOf(events, JobEvents(id, true, true, false)), j)
          && EndTold(LastOf(events, JobEvents(id, true, false, true)), j)
          && SubmissionTold(LastOf(events, JobEvents(id, true, false, false)),
                            FirstOf(events, JobEvents(id, true, true, true)), j))
  }

  ghost predicate StartTold(e: Option<Event>, j: JobExecution) {
    j.startedAt == if e.Some? && e.value.body.JobBegan? then Some(e.value.time) else None
  }

  ghost predicate EndTold(e: Option<Event>, j: JobExecution) {
    if e.Some? && e.value.body.JobEnded? then
      var body := e.value.body;
      j.completedAt == Some(e.value.time) && j.error == body.error && j.elapsed == body.elapsed
      && j.summary == body.summary && j.progress == body.progress
    else
      j.completedAt == None && j.error == None && j.elapsed == Some(0) && j.summary == None && j.progress == None
  }

  ghost predicate SubmissionTold(submission: Option<Event>, first: Option<Event>, j: JobExecution) {
    && (submission.Some? && submission.value.body.JobWasSubmitted? ==>
          j.submittedAt == Some(submission.value.time) && j.details == submission.value.body.details)
    && (submission.None? ==> j.submittedAt == None && j.details == "")
    && (var source := if submission.Some? then submission else first;
        source.Some? && source.value.turnId == Some(j.turnId) && KindOf(source.value) == j.kind)
  }

  lemma JobTellsStep(events: seq<Event>, e: Event, id: Id, jobs: Dict<JobExecution>)
    requires JobTold(events, id, jobs.vals)
    ensures JobTold(events + [e], id, NextJobs(jobs, e).vals)
  {
    LastSnoc(events, e, JobEvents(id, true, true, true));
    LastSnoc(events, e, JobEvents(id, true, true, false));
    LastSnoc(events, e, JobEvents(id, true, false, true));
    LastSnoc(events, e, JobEvents(id, true, false, false));
    FirstSnoc(events, e, JobEvents(id, true, true, true));
    hide LastOf, FirstOf;
  }

  lemma FoldedNext(preset: string, front: seq<Event>, e: Event)
    ensures var s, s' := Fold(Initial(preset), front), Fold(Initial(preset), front + [e]);
            s'.jobs == NextJobs(s.jobs, e) && s'.turns == NextTurns(s.turns, e) && s'.tools == NextTools(s.tools, e)
  {
    hide NextTurns, NextTools, NextJobs, NextAnchors;
    assert (front + [e])[..|front|] == front && Last(front + [e]) == e;
  }

  lemma NothingTold(preset: string, id: Id)
    ensures var s := Fold(Initial(preset), []);
            JobTold([], id, s.jobs.vals) && TurnTold([], id, s.turns.vals) && ToolTold([], id, s.tools.vals)
  {
  }

  /** Every job of a replayed session is what the events about it tell. */
  lemma {:induction false} JobsTell(preset: string, events: seq<Event>, id: Id)
    ensures JobTold(events, id, Fold(Initial(preset), events).jobs.vals)
    decreases |events|
  {
    hide *;
    if events == [] {
      NothingTold(preset, id);
    } else {
      var front := events[..|events| - 1];
      JobsTell(preset, front, id);
      assert events == front + [events[|events| - 1]];
      FoldedNext(preset, front, events[|events| - 1]);
      JobTellsStep(front, events[|events| - 1], id, Fold(Initial(preset), front).jobs);
    }
  }

  // ---------------------------------------------------------------- turns

  function TurnEvents(id: Id, ends: bool): (p: Event -> bool) {
    (e: Event) => e.turnId == Some(id) && id != "" && (e.body.TurnBegan? || (ends && e.body.TurnEnded?))
  }

  /** The status and the end of a turn are told by its last event, its start by its last
      start. */
  ghost predicate TurnTold(events: seq<Event>, id: Id, turns: map<Id, Turn>) {
    var any, start := LastOf(events, TurnEvents(id, true)), LastOf(events, TurnEvents(id, false));
    && (id in turns <==> any.Some?)
    && (any.Some? ==>
          && turns[id].startedAt == (if start.Some? then Some(start.value.time) else None)
          && (any.value.body.TurnBegan? ==>
                turns[id].status == TurnRunning && turns[id].finishedAt == None && turns[id].error == None)
          && (any.value.body.TurnEnded? ==>
                turns[id].status == any.value.body.turnStatus && turns[id].finishedAt == Some(any.value.time)
                && turns[id].error == any.value.body.error))
  }

  lemma TurnTellsStep(events: seq<Event>, e: Event, id: Id, turns: Dict<Turn>)
    requires TurnTold(events, id, turns.vals)
    ensures TurnTold(events + [e], id, NextTurns(turns, e).vals)
  {
    LastSnoc(events, e, TurnEvents(id, true));
    LastSnoc(events, e, TurnEvents(id, false));
    hide LastOf;
  }

  lemma {:induction false} TurnsTell(preset: string, events: seq<Event>, id: Id)
    ensures TurnTold(events, id, Fold(Initial(preset), events).turns.vals)
    decreases |events|
  {
    hide *;
    if events == [] {
      NothingTold(preset, id);
    } else {
      var front := events[..|events| - 1];
      TurnsTell(preset, front, id);
      assert events == front + [events[|events| - 1]];
      FoldedNext(preset, front, events[|events| - 1]);
      TurnTellsStep(front, events[|events| - 1], id, Fold(Initial(preset), front).turns);
    }
  }

  /** Ids of the turn events, in journal order. */
  function TurnIds(events: seq<Event>): (ids: seq<Id>)
    decreases |events|
  {
    if events == [] then []
    else
      var e := Last(events);
      TurnIds(events[..|events| - 1])
      + if e.turnId.Some? && e.turnId.value != "" && (e.body.TurnBegan? || e.body.TurnEnded?) then [e.turnId.value]
        else []
  }

  /** Each id where it occurs first. */
  function FirstSeen(ids: seq<Id>): (r: seq<Id>)
    decreases |ids|
  {
    if ids == [] then []
    else
      var front := ids[..|ids| - 1];
      FirstSeen(front) + if Last(ids) in front then [] else [Last(ids)]
  }

  /** Turns stand in the order in which the journal first speaks of them. */
  lemma {:induction false} TurnsInOrder(preset: string, events: seq<Event>)
    ensures var turns := Fold(Initial(preset), events).turns;
            && turns.keys == FirstSeen(TurnIds(events))
            && forall id :: id in turns.vals <==> id in TurnIds(events)
    decreases |events|
  {
    if events != [] {
      var front, e := events[..|events| - 1], Last(events);
      TurnsInOrder(preset, front);
      hide NextTools, NextJobs, NextAnchors;
      var ids := TurnIds(front);
      if TurnIds(events) != ids {
        var id := e.turnId.value;
        assert (ids + [id])[..|ids|] == ids && Last(ids + [id]) == id;
      }
      hide FirstSeen;
    }
  }

  // ---------------------------------------------------------------- tools

  function ToolEvents(id: Id, starts: bool, ends: bool, recoveries: bool): (p: Event -> bool) {
    (e: Event) =>
      e.toolCallId == Some(id) && id != ""
      && ((starts && e.body.ToolBegan?) || (ends && e.body.ToolEnded?) || (recoveries && e.body.ToolRecovered?))
  }

  /** An execution exists once it was started or ended; its status and completion are told
      by its last event, its error by the last that is no recovery, the rest by its last
      start, or without one by its first end. */
  ghost predicate ToolTold(events: seq<Event>, id: Id, tools: map<Id, ToolExecution>) {
    var known, any := LastOf(events, ToolEvents(id, true, true, false)),
      LastOf(events, ToolEvents(id, true, true, true));
    && (id in tools <==> known.Some?)
    && (known.Some? ==>
          var t := tools[id];
          && any.Some?
          && (any.value.body.ToolBegan? ==> t.status == ToolStarted && t.completedAt == None)
          && (any.value.body.ToolEnded? ==>
                t.status == any.value.body.toolStatus && t.completedAt == Some(any.value.time))
          && (any.value.body.ToolRecovered? ==> t.status == ToolUnknown && t.completedAt == Some(any.value.time))
          && t.error == (if known.value.body.ToolEnded? then known.value.body.error else None)
          && CallTold(LastOf(events, ToolEvents(id, true, false, false)),
             FirstOf(events, ToolEvents(id, false, true, false)), t))
  }

  ghost predicate CallTold(start: Option<Event>, end: Option<Event>, t: ToolExecution) {
    if start.Some? then
      start.value.body.ToolBegan? && t.startedAt == Some(start.value.time) && t.turnId == start.value.turnId
      && t.name == start.value.body.name && t.arguments == start.value.body.arguments
    else
      end.Some? && end.value.body.ToolEnded? && t.startedAt == None && t.turnId == end.value.turnId
      && t.name == end.value.body.name && t.arguments == ""
  }

  lemma ToolTellsStep(events: seq<Event>, e: Event, id: Id, tools: Dict<ToolExecution>)
    requires ToolTold(events, id, tools.vals)
    ensures ToolTold(events + [e], id, NextTools(tools, e).vals)
  {
    LastSnoc(events, e, ToolEvents(id, true, true, false));
    LastSnoc(events, e, ToolEvents(id, true, true, true));
    LastSnoc(events, e, ToolEvents(id, true, false, false));
    FirstSnoc(events, e, ToolEvents(id, false, true, false));
    hide LastOf, FirstOf;
  }

  lemma {:induction false} ToolsTell(preset: string, events: seq<Event>, id: Id)
    ensures ToolTold(events, id, Fold(Initial(preset), events).tools.vals)
    decreases |events|
  {
    hide *;
    if events == [] {
      NothingTold(preset, id);
    } else {
      var front := events[..|events| - 1];
      ToolsTell(preset, front, id);
      assert events == front + [events[|events| - 1]];
      FoldedNext(preset, front, events[|events| - 1]);
      ToolTellsStep(front, events[|events| - 1], id, Fold(Initial(preset), front).tools);
    }
  }

  // ---------------------------------------------------------------- the session itself

  function Kinds(archived: bool, model: bool, preset: bool, plan: bool): (p: Event -> bool) {
    (e: Event) =>
      (archived && e.body.ContextArchived?) || (model && e.body.ModelCompleted?)
      || (preset && e.body.PresetChanged?) || (plan && e.body.PlanUpdated?)
  }

  /** Usages that report both numbers, in journal order. */
  function Usages(events: seq<Event>): (r: seq<CacheUsage>)
    decreases |events|
  {
    if events == [] then []
    else
      var e := Last(events);
      var usage := match e.body
        case ModelCompleted(usage, _) => usage
        case CompressionCompleted(usage) => usage
        case _ => None;
      Usages(events[..|events| - 1])
      + if usage.Some? && usage.value.inputTokens.Some? && usage.value.cacheReadTokens.Some?
        then [CacheUsage(usage.value.inputTokens.value, usage.value.cacheReadTokens.value)] else []
  }

  function Sum(s: seq<nat>): (r: nat)
    decreases |s|
  {
    if s == [] then 0 else Sum(s[..|s| - 1]) + Last(s)
  }

  function Inputs(usages: seq<CacheUsage>): (r: seq<nat>) {
    seq(|usages|, i requires 0 <= i < |usages| => usages[i].inputTokens)
  }

  function CacheReads(usages: seq<CacheUsage>): (r: seq<nat>) {
    seq(|usages|, i requires 0 <= i < |usages| => usages[i].cacheReadTokens)
  }

  /** The archive is the last one made, and archives are counted. */
  ghost predicate ArchiveTold(events: seq<Event>, s: State) {
    var archive := LastOf(events, Kinds(true, false, false, false));
    && (archive.None? ==> s.archivedSummary == None && s.archivedCursor == 0)
    && (archive.Some? ==>
          && archive.value.body.ContextArchived?
          && s.archivedSummary == archive.value.body.archiveSummary && s.archivedCursor == archive.value.body.cursor)
    && s.compressions == |Filter(events, (e: Event) => e.body.ContextArchived?)|
  }

  /** Plan and preset are the last ones set; the token anchor is that of the last answer
      unless an archive came behind it. */
  ghost predicate SettingsTold(preset: string, events: seq<Event>, s: State) {
    var changed := LastOf(events, Kinds(false, false, true, false));
    var plan := LastOf(events, Kinds(false, false, false, true));
    var anchor := LastOf(events, Kinds(true, true, false, false));
    && s.preset == (if changed.Some? && changed.value.body.PresetChanged? then changed.value.body.preset else preset)
    && s.plan == (if plan.Some? && plan.value.body.PlanUpdated? then Some(plan.value.body.plan) else None)
    && s.tokenAnchor ==
       (if anchor.Some? && anchor.value.body.ModelCompleted? then anchor.value.body.tokenAnchor else None)
  }

  /** The usage adds up each of its two numbers, and there is one as soon as both were
      reported once. */
  ghost predicate UsageTold(events: seq<Event>, usage: Option<CacheUsage>) {
    var usages := Usages(events);
    && (usage.None? <==> usages == [])
    && (usage.Some? ==>
          && usage.value.inputTokens == Sum(Inputs(usages))
          && usage.value.cacheReadTokens == Sum(CacheReads(usages)))
  }

  lemma ArchiveTellsStep(events: seq<Event>, e: Event, s: State)
    requires ArchiveTold(events, s)
    ensures ArchiveTold(events + [e], Apply(s, e))
  {
    hide NextTurns, NextTools, NextJobs, NextAnchors, NextItems, AddUsage;
    LastSnoc(events, e, Kinds(true, false, false, false));
    FilterOneMore(events, e, (e: Event) => e.body.ContextArchived?);
    hide LastOf, Filter;
  }

  lemma SettingsTellStep(preset: string, events: seq<Event>, e: Event, s: State)
    requires SettingsTold(preset, events, s)
    ensures SettingsTold(preset, events + [e], Apply(s, e))
  {
    hide NextTurns, NextTools, NextJobs, NextAnchors, NextItems, AddUsage;
    LastSnoc(events, e, Kinds(true, true, false, false));
    LastSnoc(events, e, Kinds(false, false, true, false));
    LastSnoc(events, e, Kinds(false, false, false, true));
    hide LastOf;
  }

  lemma UsagesSnoc(events: seq<Event>, e: Event)
    ensures var usage := match e.body
                         case ModelCompleted(usage, _) => usage
                         case CompressionCompleted(usage) => usage
                         case _ => None;
            Usages(events + [e]) ==
            if usage.Some? && usage.value.inputTokens.Some? && usage.value.cacheReadTokens.Some?
            then Usages(events) + [CacheUsage(usage.value.inputTokens.value, usage.value.cacheReadTokens.value)]
            else Usages(events)
  {
    assert (events + [e])[..|events|] == events;
  }

  lemma SumsSnoc(usages: seq<CacheUsage>, u: CacheUsage)
    ensures Sum(Inputs(usages + [u])) == Sum(Inputs(usages)) + u.inputTokens
    ensures Sum(CacheReads(usages + [u])) == Sum(CacheReads(usages)) + u.cacheReadTokens
  {
    assert Inputs(usages + [u])[..|usages|] == Inputs(usages);
    assert CacheReads(usages + [u])[..|usages|] == CacheReads(usages);
  }

  lemma UsageTellsStep(events: seq<Event>, e: Event, s: State)
    requires UsageTold(events, s.cacheUsage)
    ensures UsageTold(events + [e], Apply(s, e).cacheUsage)
  {
    hide NextTurns, NextTools, NextJobs, NextAnchors, NextItems;
    UsagesSnoc(events, e);
    var usages, more := Usages(events), Usages(events + [e]);
    hide Usages;
    if more != usages { SumsSnoc(usages, Last(more)); }
    assert usages == [] ==> Sum(Inputs(usages)) == 0 && Sum(CacheReads(usages)) == 0;
    hide Inputs, CacheReads, Sum;
  }

  /** Every field of a replayed session is what the events tell. */
  lemma {:induction false} FieldsTell(preset: string, events: seq<Event>)
    ensures ArchiveTold(events, Fold(Initial(preset), events))
    ensures SettingsTold(preset, events, Fold(Initial(preset), events))
    ensures UsageTold(events, Fold(Initial(preset), events).cacheUsage)
    decreases |events|
  {
    if events != [] {
      hide ArchiveTold, SettingsTold, UsageTold, Apply;
      var front, e := events[..|events| - 1], Last(events);
      assert events == front + [e];
      FieldsTell(preset, front);
      var s := Fold(Initial(preset), front);
      ArchiveTellsStep(front, e, s);
      SettingsTellStep(preset, front, e, s);
      UsageTellsStep(front, e, s);
    }
  }

  /** The items are the appended messages, in journal order. */
  ghost predicate ItemsTold(events: seq<Event>, items: seq<Message>) {
    var appended := Filter(events, (e: Event) => e.body.MessageAppended?);
    && MessageEvents(events) == appended
    && |items| == |appended|
    && forall i :: 0 <= i < |appended| ==>
         appended[i].body.MessageAppended? && items[i] == appended[i].body.message
  }

  lemma ItemsTellStep(events: seq<Event>, e: Event, items: seq<Message>)
    requires ItemsTold(events, items)
    ensures ItemsTold(events + [e], NextItems(items, e))
  {
    var p := (e: Event) => e.body.MessageAppended?;
    var appended := Filter(events, p);
    FilterOneMore(events, e, p);
    MessageEventsSnoc(events, e);
    hide Filter, MessageEvents;
    assert Filter(events + [e], p) == if p(e) then appended + [e] else appended;
  }

  lemma MessageEventsSnoc(events: seq<Event>, e: Event)
    ensures MessageEvents(events + [e]) ==
            if e.body.MessageAppended? then MessageEvents(events) + [e] else MessageEvents(events)
  {
    assert (events + [e])[..|events|] == events;
  }

  lemma {:induction false} ItemsTell(preset: string, events: seq<Event>)
    ensures ItemsTold(events, Fold(Initial(preset), events).items)
    decreases |events|
  {
    if events != [] {
      var front, e := events[..|events| - 1], Last(events);
      assert events == front + [e];
      ItemsTell(preset, front);
      hide ItemsTold, NextTurns, NextTools, NextJobs, NextAnchors, NextItems;
      ItemsTellStep(front, e, Fold(Initial(preset), front).items);
    }
  }

  // ---------------------------------------------------------------- recovery

  /** What recovery makes of one turn, execution or job: what was running or started or not
      over is closed, everything else is as it was. */
  ghost predicate TurnRecovered(t: Turn, t': Turn) {
    if t.status == TurnRunning then
      t'.status == TurnUnknown && t'.finishedAt.Some? && t'.error == None && t'.id == t.id
        && t'.startedAt == t.startedAt
    else t' == t
  }

  ghost predicate ToolRecovers(t: ToolExecution, t': ToolExecution) {
    if t.status == ToolStarted then
      t'.status == ToolUnknown && t'.completedAt.Some? && t'.id == t.id && t'.turnId == t.turnId && t'.name == t.name
      && t'.arguments == t.arguments && t'.startedAt == t.startedAt && t'.error == t.error
    else t' == t
  }

  ghost predicate JobRecovers(j: JobExecution, j': JobExecution) {
    if j.status in {JobSubmitted, JobRunning} then
      j'.status == JobInterrupted && j'.completedAt.Some? && j'.id == j.id && j'.turnId == j.turnId && j'.kind == j.kind
      && j'.submittedAt == j.submittedAt && j'.startedAt == j.startedAt && j'.details == j.details
    else j' == j
  }

  /** From any replayed state, recovery leaves nothing running, started, submitted or
      unfinished, and touches nothing else. */
  lemma RecoveryTells(preset: string, events: seq<Event>, n: int, stamps: Stamps)
    ensures var s := Fold(Initial(preset), events);
            var r := Fold(s, Recovery(s, n, stamps));
            && r == s.(turns := r.turns, tools := r.tools, jobs := r.jobs)
            && r.turns.keys == s.turns.keys && r.turns.vals.Keys == s.turns.vals.Keys
            && r.tools.keys == s.tools.keys && r.tools.vals.Keys == s.tools.vals.Keys
            && r.jobs.keys == s.jobs.keys && r.jobs.vals.Keys == s.jobs.vals.Keys
            && (forall id :: id in s.turns.vals ==> TurnRecovered(s.turns.vals[id], r.turns.vals[id]))
            && (forall id :: id in s.tools.vals ==> ToolRecovers(s.tools.vals[id], r.tools.vals[id]))
            && (forall id :: id in s.jobs.vals ==> JobRecovers(s.jobs.vals[id], r.jobs.vals[id]))
  {
    var s := Fold(Initial(preset), events);
    DictsFitAlways(preset, events);
    RecoveryClosesStaleWork(s, n, stamps);
    var r := Fold(s, Recovery(s, n, stamps));
    assert s.turns.Valid() && s.tools.Valid() && s.jobs.Valid();
    hide Fold, Recovery, DictsFit;
    TurnsRecovered(s.turns, r.turns);
    ToolsRecovered(s.tools, r.tools);
    JobsRecovered(s.jobs, r.jobs);
  }

  lemma TurnsRecovered(d: Dict<Turn>, d': Dict<Turn>)
    requires d.Valid() && TurnsClosed(d, d', StaleTurns(d))
    ensures d'.keys == d.keys && d'.vals.Keys == d.vals.Keys
    ensures forall id :: id in d.vals ==> TurnRecovered(d.vals[id], d'.vals[id])
  {
    var stale := StaleTurns(d);
    hide StaleTurns;
    forall id | id in d.vals ensures TurnRecovered(d.vals[id], d'.vals[id]) {
      assert id in d.keys;
      assert id in stale <==> d.vals[id].status == TurnRunning;
    }
  }

  lemma ToolsRecovered(d: Dict<ToolExecution>, d': Dict<ToolExecution>)
    requires d.Valid() && ToolsClosed(d, d', StaleTools(d))
    ensures d'.keys == d.keys && d'.vals.Keys == d.vals.Keys
    ensures forall id :: id in d.vals ==> ToolRecovers(d.vals[id], d'.vals[id])
  {
    var stale := StaleTools(d);
    hide StaleTools;
    forall id | id in d.vals ensures ToolRecovers(d.vals[id], d'.vals[id]) {
      assert id in d.keys;
      assert id in stale <==> d.vals[id].status == ToolStarted;
    }
  }

  lemma JobsRecovered(d: Dict<JobExecution>, d': Dict<JobExecution>)
    requires d.Valid() && JobsClosed(d, d', StaleJobs(d))
    ensures d'.keys == d.keys && d'.vals.Keys == d.vals.Keys
    ensures forall id :: id in d.vals ==> JobRecovers(d.vals[id], d'.vals[id])
  {
    var stale := StaleJobs(d);
    hide StaleJobs;
    forall id | id in d.vals ensures JobRecovers(d.vals[id], d'.vals[id]) {
      assert id in d.keys;
      assert id in stale <==> d.vals[id].status in {JobSubmitted, JobRunning};
    }
  }
}
