/** Durable schedules: when the next occurrence is, what a poll does to every schedule
    that is due, and what stays true over whole runs of polls, launches, ends of runs,
    deletions and restarts. Times are microseconds; cron is matched in UTC. */
module Scheduler {
  import opened Common
  import opened Messages

  const SECOND: Time := 1_000_000
  const MINUTE: Time := 60 * SECOND
  const JITTER: Time := 100_000
  const CRON_MINUTES: nat := 60 * 24 * 370

  type Seconds = n: int | n >= 1 witness 1

  datatype Trigger = Once(at: Time) | Interval(seconds: Seconds, startAt: Option<Time>) | Cron(expression: string)

  /** Whether a cron expression matches a minute. */
  type Matcher = (string, Time) -> bool

  // ---------------------------------------------------------------- occurrences

  function FloorMinute(t: Time): (r: Time)
    ensures r <= t < r + MINUTE && r % MINUTE == 0
  {
    t - t % MINUTE
  }

  /** The first matching minute of the next `n`. */
  function NextCron(m: Matcher, expression: string, cursor: Time, n: nat): (r: Option<Time>)
    ensures r.Some? ==> cursor <= r.value < cursor + n * MINUTE && m(expression, r.value)
    ensures r.Some? ==> (r.value - cursor) % MINUTE == 0
    decreases n
  {
    if n == 0 then None
    else if m(expression, cursor) then Some(cursor)
    else
      var later := NextCron(m, expression, cursor + MINUTE, n - 1);
      assert later.Some? ==> (later.value - cursor) % MINUTE == 0 by {
        if later.Some? { StepsAdd(later.value - cursor - MINUTE, MINUTE); }
      }
      later
  }

  lemma StepsAdd(x: int, d: int)
    requires d > 0 && x % d == 0
    ensures (x + d) % d == 0
  {
    assert x == x / d * d;
    assert x + d == (x / d + 1) * d;
    Multiple(x / d + 1, d);
  }

  lemma Multiple(k: int, d: int)
    requires d > 0
    ensures (k * d) % d == 0
  {
    assert (k * d) % d == 0 by {
      var q, r := k * d / d, k * d % d;
      assert k * d == q * d + r && 0 <= r < d;
      assert (k - q) * d == r;
      assert k - q >= 1 ==> (k - q) * d >= d;
      assert k - q <= -1 ==> (k - q) * d <= -d;
    }
  }

  /** No matching minute is passed over. */
  lemma {:induction false} NextCronIsFirst(m: Matcher, expression: string, cursor: Time, n: nat, k: nat)
    requires k < n && m(expression, cursor + k * MINUTE)
    ensures NextCron(m, expression, cursor, n).Some?
    ensures NextCron(m, expression, cursor, n).value <= cursor + k * MINUTE
    decreases n
  {
    if k > 0 && !m(expression, cursor) {
      assert cursor + MINUTE + (k - 1) * MINUTE == cursor + k * MINUTE;
      NextCronIsFirst(m, expression, cursor + MINUTE, n - 1, k - 1);
    }
  }

  method FindCron(m: Matcher, expression: string, after: Time) returns (candidate: Option<Time>)
    ensures candidate == NextCron(m, expression, FloorMinute(after) + MINUTE, CRON_MINUTES)
  {
    var cursor := FloorMinute(after) + MINUTE;
    ghost var start := cursor;
    for i := 0 to CRON_MINUTES
      invariant NextCron(m, expression, start, CRON_MINUTES) == NextCron(m, expression, cursor, CRON_MINUTES - i)
    {
      if m(expression, cursor) { return Some(cursor); }
      cursor := cursor + MINUTE;
    }
    candidate := None;
  }

  function Candidate(m: Matcher, trigger: Trigger, after: Time): (r: Option<Time>) {
    match trigger
    case Once(at) => if at > after then Some(at) else None
    case Interval(seconds, startAt) =>
      var delta := seconds * SECOND;
      var first := if startAt.Some? then startAt.value else after + delta;
      Some(if first <= after then first + ((after - first) / delta + 1) * delta else first)
    case Cron(expression) => NextCron(m, expression, FloorMinute(after) + MINUTE, CRON_MINUTES)
  }

  function Until(candidate: Option<Time>, endAt: Option<Time>): (r: Option<Time>) {
    if candidate.None? || (endAt.Some? && candidate.value > endAt.value) then None else candidate
  }

  function NextOccurrence(m: Matcher, trigger: Trigger, endAt: Option<Time>, after: Time): (r: Option<Time>) {
    Until(Candidate(m, trigger, after), endAt)
  }

  predicate Missed(trigger: Trigger, scheduledFor: Time, now: Time) {
    match trigger
    case Once(_) => false
    case Cron(_) => scheduledFor < now - MINUTE
    case Interval(seconds, _) => now - scheduledFor > seconds * SECOND + JITTER
  }

  function NextAfterMissed(seconds: Seconds, scheduledFor: Time, now: Time): (r: Time) {
    var delta := seconds * SECOND;
    scheduledFor + ((now - scheduledFor) / delta + 1) * delta
  }

  /** `t` lies a whole number of steps of `seconds` from `origin`. */
  predicate OnLattice(origin: Time, seconds: Seconds, t: Time) {
    (t - origin) % (seconds * SECOND) == 0
  }

  /** Going up by whole steps past `now` lands on the first lattice point behind it. */
  lemma StepPast(x: Time, delta: int, now: Time)
    requires delta > 0 && x <= now
    ensures var t := x + ((now - x) / delta + 1) * delta;
            now < t <= now + delta && (t - x) % delta == 0
  {
    var k := (now - x) / delta;
    assert now - x == k * delta + (now - x) % delta;
    assert (k + 1) * delta == k * delta + delta;
    Multiple(k + 1, delta);
  }

  /** Lattice points that far apart are the same. */
  lemma LatticeStep(origin: Time, seconds: Seconds, x: Time, t: Time)
    requires OnLattice(origin, seconds, x) && OnLattice(origin, seconds, t)
    requires x < t <= x + seconds * SECOND
    ensures t == x + seconds * SECOND
  {
    var d := seconds * SECOND;
    var i, j := (x - origin) / d, (t - origin) / d;
    assert x - origin == i * d && t - origin == j * d;
    assert (j - i) * d == t - x;
    assert j - i <= 0 ==> (j - i) * d <= 0;
    assert j - i >= 2 ==> (j - i) * d >= 2 * d;
  }

  lemma LatticeFrom(origin: Time, seconds: Seconds, x: Time, t: Time)
    requires OnLattice(origin, seconds, x) && (t - x) % (seconds * SECOND) == 0
    ensures OnLattice(origin, seconds, t)
  {
    var d := seconds * SECOND;
    var i, j := (x - origin) / d, (t - x) / d;
    assert x - origin == i * d && t - x == j * d;
    assert t - origin == (i + j) * d;
    Multiple(i + j, d);
  }

  // ---------------------------------------------------------------- one schedule

  datatype Schedule = Schedule(id: Id, trigger: Trigger, enabled: bool, endAt: Option<Time>, nextRunAt: Option<Time>)

  function Created(m: Matcher, id: Id, trigger: Trigger, endAt: Option<Time>, now: Time): (s: Schedule) {
    Schedule(id, trigger, true, endAt,
      NextOccurrence(m, trigger, endAt, if trigger.Interval? then now else now - SECOND))
  }

  predicate Due(s: Schedule, now: Time) {
    s.enabled && s.nextRunAt.Some? && s.nextRunAt.value <= now
  }

  /** What a poll makes of a schedule that is due. */
  function Advance(m: Matcher, s: Schedule, now: Time): (r: Schedule)
    requires Due(s, now)
  {
    var at := s.nextRunAt.value;
    s.(nextRunAt := if !Missed(s.trigger, at, now) then NextOccurrence(m, s.trigger, s.endAt, at)
                    else if s.trigger.Interval? then Until(Some(NextAfterMissed(s.trigger.seconds, at, now)), s.endAt)
                    else NextOccurrence(m, s.trigger, s.endAt, now),
       enabled := s.enabled && !s.trigger.Once?)
  }

  /** What holds of a schedule between polls: a one-shot waits for its own time, an
      interval with a start stays on the lattice of its start, and the end is kept. */
  ghost predicate Sensible(s: Schedule) {
    && (s.nextRunAt.Some? && s.endAt.Some? ==> s.nextRunAt.value <= s.endAt.value)
    && (s.nextRunAt.Some? && s.trigger.Once? ==> s.nextRunAt.value == s.trigger.at)
    && (s.nextRunAt.Some? && s.trigger.Interval? && s.trigger.startAt.Some? ==>
          OnLattice(s.trigger.startAt.value, s.trigger.seconds, s.nextRunAt.value))
  }

  predicate AtPoint(trigger: Trigger, t: Time) {
    && trigger.Interval? && trigger.startAt.Some?
    && trigger.startAt.value <= t
    && OnLattice(trigger.startAt.value, trigger.seconds, t)
  }

  lemma CandidateLater(m: Matcher, trigger: Trigger, after: Time)
    ensures var r := Candidate(m, trigger, after);
            r.Some? ==>
              && r.value > after
              && (trigger.Once? ==> r.value == trigger.at)
              && (trigger.Interval? && trigger.startAt.Some? ==>
                  OnLattice(trigger.startAt.value, trigger.seconds, r.value))
              && (trigger.Interval? && trigger.startAt.None? ==> r.value == after + trigger.seconds * SECOND)
              && (AtPoint(trigger, after) ==> r.value == after + trigger.seconds * SECOND)
  {
    if trigger.Interval? && trigger.startAt.Some? {
      var a, d := trigger.startAt.value, trigger.seconds * SECOND;
      if a <= after {
        StepPast(a, d, after);
        var r := Candidate(m, trigger, after).value;
        if OnLattice(a, trigger.seconds, after) { LatticeStep(a, trigger.seconds, after, r); }
      } else {
        Multiple(0, d);
      }
    }
  }

  lemma CreatedSensible(m: Matcher, id: Id, trigger: Trigger, endAt: Option<Time>, now: Time)
    ensures Sensible(Created(m, id, trigger, endAt, now))
  {
    hide Candidate, OnLattice;
    CandidateLater(m, trigger, if trigger.Interval? then now else now - SECOND);
  }

  /** A start that is still ahead is where the first occurrence is. */
  ghost predicate StartPassed(s: Schedule) {
    s.nextRunAt.Some? && s.trigger.Interval? && s.trigger.startAt.Some? ==> s.trigger.startAt.value <= s.nextRunAt.value
  }

  lemma CreatedStart(m: Matcher, id: Id, trigger: Trigger, endAt: Option<Time>, now: Time)
    ensures StartPassed(Created(m, id, trigger, endAt, now))
  {
    if trigger.Interval? && trigger.startAt.Some? && trigger.startAt.value <= now {
      StepPast(trigger.startAt.value, trigger.seconds * SECOND, now);
    }
  }

  /** A due schedule moves on strictly: a one-shot never again, an interval by whole
      steps to a time no more than the jitter behind the poll, cron to a later match. */
  lemma AdvanceMovesOn(m: Matcher, s: Schedule, now: Time)
    requires Due(s, now) && Sensible(s) && StartPassed(s)
    ensures var at, r := s.nextRunAt.value, Advance(m, s, now);
            && r == s.(nextRunAt := r.nextRunAt, enabled := r.enabled)
            && Sensible(r) && StartPassed(r)
            && (s.trigger.Once? ==> !r.enabled)
            && (r.nextRunAt.Some? ==>
                  && r.nextRunAt.value > at
                  && (s.trigger.Interval? ==>
                        && OnLattice(at, s.trigger.seconds, r.nextRunAt.value)
                        && r.nextRunAt.value >= now - JITTER)
                  && (s.trigger.Cron? ==> r.nextRunAt.value > now - MINUTE))
  {
    var at := s.nextRunAt.value;
    if !Missed(s.trigger, at, now) {
      CandidateLater(m, s.trigger, at);
      if s.trigger.Interval? {
        hide Candidate;
        Multiple(1, s.trigger.seconds * SECOND);
      }
    } else if s.trigger.Interval? {
      hide Candidate;
      StepPast(at, s.trigger.seconds * SECOND, now);
      if s.trigger.startAt.Some? {
        LatticeFrom(s.trigger.startAt.value, s.trigger.seconds, at, NextAfterMissed(s.trigger.seconds, at, now));
      }
    } else {
      CandidateLater(m, s.trigger, now);
    }
  }

  // ---------------------------------------------------------------- the log

  datatype RunStatus = Running | Completed | Failed | Skipped

  datatype Run = Run(id: Id, scheduleId: Id, scheduledFor: Time, status: RunStatus)

  datatype Record = Saved(schedule: Schedule) | Deleted(id: Id) | RunSaved(run: Run)

  function Without(keys: seq<Id>, k: Id): (r: seq<Id>)
    ensures forall x :: x in r <==> x in keys && x != k
  {
    if keys == [] then [] else (if keys[0] == k then [] else [keys[0]]) + Without(keys[1..], k)
  }

  lemma {:induction false} WithoutDistinct(keys: seq<Id>, k: Id)
    requires Distinct(keys)
    ensures Distinct(Without(keys, k))
  {
    if keys != [] {
      WithoutDistinct(keys[1..], k);
      assert forall i :: 0 <= i < |keys[1..]| ==> keys[1..][i] == keys[i + 1] != keys[0];
      var rest := Without(keys[1..], k);
      forall i | 0 <= i < |rest| ensures rest[i] != keys[0] {
        assert rest[i] in rest && rest[i] in keys[1..];
      }
    }
  }

  function Replayed(d: Dict<Schedule>, r: Record): (d': Dict<Schedule>) {
    match r
    case Saved(s) => d.Put(s.id, s)
    case Deleted(id) => Dict(Without(d.keys, id), d.vals - {id})
    case RunSaved(_) => d
  }

  function Schedules(log: seq<Record>): (d: Dict<Schedule>)
    decreases |log|
  {
    if log == [] then Dict([], map[]) else Replayed(Schedules(log[..|log| - 1]), Last(log))
  }

  function Runs(log: seq<Record>): (runs: map<Id, Run>)
    decreases |log|
  {
    if log == [] then map[]
    else
      var runs := Runs(log[..|log| - 1]);
      if Last(log).RunSaved? then runs[Last(log).run.id := Last(log).run] else runs
  }

  lemma LogSnoc(log: seq<Record>, r: Record)
    ensures Schedules(log + [r]) == Replayed(Schedules(log), r)
    ensures Runs(log + [r]) == if r.RunSaved? then Runs(log)[r.run.id := r.run] else Runs(log)
  {
    assert (log + [r])[..|log|] == log && Last(log + [r]) == r;
  }

  // ---------------------------------------------------------------- one poll

  /** The schedules that are due, in dictionary order. */
  function DueIds(vals: map<Id, Schedule>, keys: seq<Id>, now: Time): (r: seq<Id>)
    ensures forall k :: k in r <==> k in keys && k in vals && Due(vals[k], now)
    decreases |keys|
  {
    if keys == [] then []
    else
      var k := Last(keys);
      DueIds(vals, keys[..|keys| - 1], now) + if k in vals && Due(vals[k], now) then [k] else []
  }

  lemma {:induction false} DueDistinct(vals: map<Id, Schedule>, keys: seq<Id>, now: Time)
    requires Distinct(keys)
    ensures Distinct(DueIds(vals, keys, now))
    decreases |keys|
  {
    if keys != [] {
      var front := keys[..|keys| - 1];
      DueDistinct(vals, front, now);
      assert Last(keys) !in front;
    }
  }

  /** The records a poll appends for them. */
  function Updates(m: Matcher, vals: map<Id, Schedule>, ids: seq<Id>, now: Time): (r: seq<Record>)
    requires forall k :: k in ids ==> k in vals && Due(vals[k], now)
    decreases |ids|
  {
    if ids == [] then []
    else Updates(m, vals, ids[..|ids| - 1], now) + [Saved(Advance(m, vals[Last(ids)], now))]
  }

  ghost predicate Keyed(d: Dict<Schedule>) {
    d.Valid() && forall k :: k in d.vals ==> d.vals[k].id == k
  }

  /** `d'` is `d` with the schedules `ids` moved on. */
  ghost predicate Moved(m: Matcher, d: Dict<Schedule>, d': Dict<Schedule>, ids: seq<Id>, now: Time) {
    && d'.keys == d.keys && d'.vals.Keys == d.vals.Keys
    && (forall id :: id in ids ==> id in d.vals && Due(d.vals[id], now))
    && (forall id :: id in d.vals && id in ids ==> d'.vals[id] == Advance(m, d.vals[id], now))
    && (forall id :: id in d.vals && id !in ids ==> d'.vals[id] == d.vals[id])
  }

  lemma MovedOneMore(m: Matcher, d: Dict<Schedule>, d': Dict<Schedule>, front: seq<Id>, k: Id, now: Time)
    requires Keyed(d) && Moved(m, d, d', front, now) && k in d.vals && k !in front && Due(d.vals[k], now)
    ensures Moved(m, d, Replayed(d', Saved(Advance(m, d.vals[k], now))), front + [k], now)
  {
    AdvanceKeepsId(m, d.vals[k], now);
    hide Advance, Due;
  }

  lemma AdvanceKeepsId(m: Matcher, s: Schedule, now: Time)
    requires Due(s, now)
    ensures Advance(m, s, now).id == s.id
  {
  }

  /** Reloading the log after a poll finds the due schedules moved on and the others as
      they were. */
  lemma UpdatesSnoc(m: Matcher, vals: map<Id, Schedule>, front: seq<Id>, k: Id, now: Time)
    requires forall x :: x in front + [k] ==> x in vals && Due(vals[x], now)
    ensures forall x :: x in front ==> x in vals && Due(vals[x], now)
    ensures k in vals && Due(vals[k], now)
    ensures Updates(m, vals, front + [k], now) == Updates(m, vals, front, now) + [Saved(Advance(m, vals[k], now))]
  {
    hide Due, Advance;
    assert forall x :: x in front ==> x in front + [k];
    assert k in front + [k];
    assert (front + [k])[..|front|] == front;
  }

  lemma {:induction false} UpdatesApply(m: Matcher, log: seq<Record>, ids: seq<Id>, now: Time)
    requires Keyed(Schedules(log)) && Distinct(ids)
    requires forall k :: k in ids ==> k in Schedules(log).vals && Due(Schedules(log).vals[k], now)
    ensures Moved(m, Schedules(log), Schedules(log + Updates(m, Schedules(log).vals, ids, now)), ids, now)
    ensures Runs(log + Updates(m, Schedules(log).vals, ids, now)) == Runs(log)
    decreases |ids|
  {
    var d := Schedules(log);
    hide Schedules, Runs, Due, Advance;
    if ids == [] {
      assert log + Updates(m, d.vals, ids, now) == log;
    } else {
      hide Moved, Keyed;
      var front, k := ids[..|ids| - 1], Last(ids);
      assert forall x :: x in front ==> x in ids;
      assert k in ids && k !in front && ids == front + [k];
      UpdatesApply(m, log, front, now);
      var some := Updates(m, d.vals, front, now);
      var r := Saved(Advance(m, d.vals[k], now));
      UpdatesSnoc(m, d.vals, front, k, now);
      hide Updates;
      Associative(log, some, [r]);
      LogSnoc(log + some, r);
      MovedOneMore(m, d, Schedules(log + some), front, k, now);
    }
  }

  // ---------------------------------------------------------------- runs of the service

  /** An occurrence a poll has taken, for which no run has been recorded yet. */
  datatype Pending = Pending(scheduleId: Id, scheduledFor: Time, missed: bool)

  /** Every occurrence ever taken of one schedule. */
  datatype Book = Book(trigger: Trigger, endAt: Option<Time>, times: seq<Time>)

  /** How the runner of a run ends: it returns, raises an Exception, or raises something
      that is not one and so leaves the run as it was. */
  datatype RunEnd = Returns | Raises | Breaks

  function EndStatus(end: RunEnd): (r: RunStatus) {
    match end
    case Returns => Completed
    case Raises => Failed
    case Breaks => Running
  }

  /** `log` is the file; `running` is the service's own set; `live` are the runs whose
      threads have not ended; `lost` are those that ended or died without saying so in the
      log; `fired` is every occurrence ever taken, by schedule. */
  datatype System = System(
    log: seq<Record>,
    running: set<Id>,
    pending: seq<Pending>,
    live: set<Id>,
    lost: set<Id>,
    fired: map<Id, Book>)

  const EMPTY := System([], {}, [], {}, {}, map[])

  datatype Action =
    | Create(id: Id, trigger: Trigger, endAt: Option<Time>, now: Time)
    | Delete(id: Id)
    | Poll(now: Time)
    | PollDies(now: Time, cut: nat)
    | Launch(k: nat, runId: Id, runner: bool)
    | Finish(runId: Id, end: RunEnd)
    | Restart

  function PendingOf(vals: map<Id, Schedule>, ids: seq<Id>, now: Time): (r: seq<Pending>)
    requires forall k :: k in ids ==> k in vals && Due(vals[k], now)
    ensures |r| == |ids|
    ensures forall i :: 0 <= i < |ids| ==>
              ids[i] in vals && vals[ids[i]].nextRunAt.Some? && r[i].scheduleId == ids[i]
              && r[i].scheduledFor == vals[ids[i]].nextRunAt.value
    decreases |ids|
  {
    if ids == [] then []
    else
      var k := ids[|ids| - 1];
      assert k in ids && Due(vals[k], now);
      var s := vals[k];
      PendingOf(vals, ids[..|ids| - 1], now)
      + [Pending(k, s.nextRunAt.value, Missed(s.trigger, s.nextRunAt.value, now))]
  }

  function Noted(b: Book, t: Time): (r: Book) {
    b.(times := b.times + [t])
  }

  function NotedAll(fired: map<Id, Book>, vals: map<Id, Schedule>, due: seq<Id>): (r: map<Id, Book>)
    requires forall k :: k in due ==> k in vals && vals[k].nextRunAt.Some?
  {
    map id | id in fired :: if id in due then Noted(fired[id], vals[id].nextRunAt.value) else fired[id]
  }

  function Status(s: System, p: Pending, runner: bool): (r: RunStatus) {
    if p.missed || p.scheduleId in s.running then Skipped else if !runner then Failed else Running
  }

  /** One lock region of the service, one end of a run, or a new process. Ids of schedules
      and runs are fresh. */
  function Step(m: Matcher, s: System, a: Action): (r: System) {
    match a
    case Create(id, trigger, endAt, now) =>
      if id in s.fired then s
      else s.(log := s.log + [Saved(Created(m, id, trigger, endAt, now))],
        fired := s.fired[id := Book(trigger, endAt, [])])
    case Delete(id) =>
      if id in Schedules(s.log).vals then s.(log := s.log + [Deleted(id)]) else s
    case Poll(now) =>
      var d := Schedules(s.log);
      var due := DueIds(d.vals, d.keys, now);
      s.(log := s.log + Updates(m, d.vals, due, now),
         pending := s.pending + PendingOf(d.vals, due, now),
         fired := NotedAll(s.fired, d.vals, due))
    case PollDies(now, cut) =>
      var d := Schedules(s.log);
      var moved := FirstOf(DueIds(d.vals, d.keys, now), cut);
      Restarted(s.(log := s.log + Updates(m, d.vals, moved, now), fired := NotedAll(s.fired, d.vals, moved)))
    case Launch(k, runId, runner) =>
      if k >= |s.pending| || runId in Runs(s.log) then s
      else
        var p := s.pending[k];
        var status := Status(s, p, runner);
        s.(log := s.log + [RunSaved(Run(runId, p.scheduleId, p.scheduledFor, status))],
           pending := s.pending[..k] + s.pending[k + 1..],
           running := if status == Running then s.running + {p.scheduleId} else s.running,
           live := if status == Running then s.live + {runId} else s.live)
    case Finish(runId, end) =>
      if runId !in s.live || runId !in Runs(s.log) then s
      else
        var run := Runs(s.log)[runId];
        s.(log := s.log + [RunSaved(run.(status := EndStatus(end)))],
           running := s.running - {run.scheduleId},
           live := s.live - {runId},
           lost := if end.Breaks? then s.lost + {runId} else s.lost)
    case Restart => Restarted(s)
  }

  function FirstOf(ids: seq<Id>, n: nat): (r: seq<Id>)
    ensures forall k :: k in r ==> k in ids
  {
    ids[..if n <= |ids| then n else |ids|]
  }

  /** A new process: taken occurrences without a run are gone, live runs are lost. */
  function Restarted(s: System): (r: System) {
    s.(running := {}, pending := [], live := {}, lost := s.lost + s.live)
  }

  /** A process that dies in a poll has appended a prefix of what the poll appends. */
  lemma {:induction false} UpdatesCut(m: Matcher, vals: map<Id, Schedule>, ids: seq<Id>, now: Time, n: nat)
    requires n <= |ids| && forall k :: k in ids ==> k in vals && Due(vals[k], now)
    ensures forall k :: k in ids[..n] ==> k in ids
    ensures |Updates(m, vals, ids, now)| == |ids| && Updates(m, vals, ids[..n], now) == Updates(m, vals, ids, now)[..n]
    decreases |ids|
  {
    hide Due, Advance;
    if ids == [] {
      assert ids[..n] == ids;
    } else {
      var front := ids[..|ids| - 1];
      assert forall k :: k in front ==> k in ids;
      UpdatesCut(m, vals, front, now, if n < |ids| then n else |front|);
      if n == |ids| {
        UpdatesCut(m, vals, front, now, |front|);
        assert ids[..n] == ids;
      } else {
        assert front[..n] == ids[..n];
      }
    }
  }

  function After(m: Matcher, actions: seq<Action>): (s: System)
    decreases |actions|
  {
    if actions == [] then EMPTY else Step(m, After(m, actions[..|actions| - 1]), Last(actions))
  }

  // ---------------------------------------------------------------- occurrences over a run

  /** The occurrences of a schedule strictly increase, never pass its end, and fit its
      trigger: a one-shot has one at most, an interval keeps its step. */
  ghost predicate GoodBook(b: Book) {
    && (forall i, j :: 0 <= i < j < |b.times| ==> b.times[i] < b.times[j])
    && (b.endAt.Some? ==> forall i :: 0 <= i < |b.times| ==> b.times[i] <= b.endAt.value)
    && (b.trigger.Once? ==> |b.times| <= 1 && forall i :: 0 <= i < |b.times| ==> b.times[i] == b.trigger.at)
    && (b.trigger.Interval? ==> forall i :: 0 <= i < |b.times| ==> OnLattice(b.times[0], b.trigger.seconds, b.times[i]))
    && (b.trigger.Interval? && b.trigger.startAt.Some? ==>
          forall i :: 0 <= i < |b.times| ==> OnLattice(b.trigger.startAt.value, b.trigger.seconds, b.times[i]))
  }

  /** The schedule, as reloaded, goes on from its book. */
  ghost predicate GoesOn(b: Book, s: Schedule) {
    && s.trigger == b.trigger && s.endAt == b.endAt
    && Sensible(s) && StartPassed(s)
    && (b.times != [] && s.nextRunAt.Some? ==>
          && s.nextRunAt.value > Last(b.times)
          && (b.trigger.Interval? ==> OnLattice(b.times[0], b.trigger.seconds, s.nextRunAt.value)))
    && (b.times != [] && b.trigger.Once? ==> !s.enabled)
  }

  lemma BookGrows(m: Matcher, b: Book, s: Schedule, now: Time)
    requires GoodBook(b) && GoesOn(b, s) && Due(s, now)
    ensures GoodBook(Noted(b, s.nextRunAt.value)) && GoesOn(Noted(b, s.nextRunAt.value), Advance(m, s, now))
  {
    var at := s.nextRunAt.value;
    AdvanceMovesOn(m, s, now);
    var r := Advance(m, s, now);
    hide Advance, StartPassed;
    if b.trigger.Interval? {
      var d := b.trigger.seconds * SECOND;
      Multiple(0, d);
      if b.times != [] && r.nextRunAt.Some? { LatticeFrom(b.times[0], b.trigger.seconds, at, r.nextRunAt.value); }
    }
    hide OnLattice;
  }

  ghost predicate BooksFit(d: Dict<Schedule>, fired: map<Id, Book>) {
    && Keyed(d)
    && (forall id :: id in d.vals ==> id in fired && GoesOn(fired[id], d.vals[id]))
    && (forall id :: id in fired ==> GoodBook(fired[id]))
  }

  /** `d'` is what a poll makes of `d`. */
  ghost predicate Polled(m: Matcher, d: Dict<Schedule>, d': Dict<Schedule>, due: seq<Id>, now: Time) {
    && Moved(m, d, d', due, now)
    && (forall id :: id in d.vals && id !in due ==> !Due(d.vals[id], now))
  }

  /** What a poll does, in one place: the schedules after reloading, the occurrences it
      takes and the runs it leaves alone. */
  lemma PollDoes(m: Matcher, s: System, now: Time)
    requires Keyed(Schedules(s.log))
    ensures var s', d := Step(m, s, Poll(now)), Schedules(s.log);
            var due := DueIds(d.vals, d.keys, now);
            && Distinct(due) && Polled(m, d, Schedules(s'.log), due, now)
            && s'.running == s.running && s'.live == s.live && s'.lost == s.lost
            && s'.pending == s.pending + PendingOf(d.vals, due, now)
            && s'.fired == NotedAll(s.fired, d.vals, due)
            && Runs(s'.log) == Runs(s.log)
  {
    var d := Schedules(s.log);
    var due := DueIds(d.vals, d.keys, now);
    hide Schedules, Runs, DueIds, Due, Updates, PendingOf, NotedAll, Advance, Distinct;
    DueDistinct(d.vals, d.keys, now);
    assert Step(m, s, Poll(now)).log == s.log + Updates(m, d.vals, due, now);
    ReloadAfterPoll(m, s.log, now);
  }

  lemma ReloadAfterPoll(m: Matcher, log: seq<Record>, now: Time)
    requires Keyed(Schedules(log))
    ensures var d := Schedules(log);
            var due := DueIds(d.vals, d.keys, now);
            var log' := log + Updates(m, d.vals, due, now);
            Polled(m, d, Schedules(log'), due, now) && Runs(log') == Runs(log)
  {
    hide Schedules, Runs, Updates, DueIds, Due, Advance, Distinct, Moved;
    var d := Schedules(log);
    var due := DueIds(d.vals, d.keys, now);
    DueDistinct(d.vals, d.keys, now);
    UpdatesApply(m, log, due, now);
  }

  lemma PollKeepsBook(m: Matcher, d: Dict<Schedule>, d': Dict<Schedule>, due: seq<Id>, b: Book, now: Time, id: Id)
    requires Keyed(d) && Moved(m, d, d', due, now) && id in d.vals && GoesOn(b, d.vals[id]) && GoodBook(b)
    ensures d'.vals[id].id == id
    ensures id in due ==> d.vals[id].nextRunAt.Some?
    ensures var b' := if id in due then Noted(b, d.vals[id].nextRunAt.value) else b;
            GoesOn(b', d'.vals[id]) && GoodBook(b')
  {
    hide GoodBook, GoesOn, Advance, Noted, Distinct;
    if id in due {
      assert Due(d.vals[id], now);
      BookGrows(m, b, d.vals[id], now);
      AdvanceKeepsId(m, d.vals[id], now);
    }
  }

  lemma KeyedSame(m: Matcher, d: Dict<Schedule>, d': Dict<Schedule>, due: seq<Id>, now: Time)
    requires Keyed(d) && Moved(m, d, d', due, now) && forall id :: id in d.vals ==>
             id in d'.vals && d'.vals[id].id == id
    ensures Keyed(d') && d'.vals.Keys == d.vals.Keys
  {
    hide Advance, Due, Distinct;
  }

  lemma PollKeepsBooks(m: Matcher, d: Dict<Schedule>, d': Dict<Schedule>, due: seq<Id>, fired: map<Id, Book>, now: Time)
    requires BooksFit(d, fired) && Moved(m, d, d', due, now)
    requires forall k :: k in due ==> k in d.vals && d.vals[k].nextRunAt.Some?
    ensures BooksFit(d', NotedAll(fired, d.vals, due))
  {
    hide GoodBook, GoesOn, Noted, Keyed, Advance, Due;
    var fired' := NotedAll(fired, d.vals, due);
    assert d'.vals.Keys == d.vals.Keys;
    hide Moved;
    forall id | id in fired
      ensures GoodBook(fired'[id])
      ensures id in d.vals ==> GoesOn(fired'[id], d'.vals[id]) && d'.vals[id].id == id
    {
      if id in d.vals { PollKeepsBook(m, d, d', due, fired[id], now, id); }
    }
    hide NotedAll;
    KeyedSame(m, d, d', due, now);
  }

  lemma RecordKeepsBooks(d: Dict<Schedule>, fired: map<Id, Book>, r: Record)
    requires BooksFit(d, fired) && !r.Saved?
    ensures BooksFit(Replayed(d, r), fired)
  {
    hide GoodBook, GoesOn, Distinct;
    if r.Deleted? { WithoutDistinct(d.keys, r.id); }
  }

  lemma CreateKeepsBooks(m: Matcher, d: Dict<Schedule>, fired: map<Id, Book>, id: Id, trigger: Trigger,
                         endAt: Option<Time>, now: Time)
    requires BooksFit(d, fired) && id !in fired
    ensures BooksFit(Replayed(d, Saved(Created(m, id, trigger, endAt, now))), fired[id := Book(trigger, endAt, [])])
  {
    var s := Created(m, id, trigger, endAt, now);
    CreatedSensible(m, id, trigger, endAt, now);
    CreatedStart(m, id, trigger, endAt, now);
    assert s.id == id && GoesOn(Book(trigger, endAt, []), s) && GoodBook(Book(trigger, endAt, []));
    hide GoodBook, GoesOn, Created;
  }

  // ---------------------------------------------------------------- no occurrence twice

  predicate Took(fired: map<Id, Book>, id: Id, t: Time) {
    id in fired && t in fired[id].times
  }

  predicate SamePoint(a: Pending, b: Pending) {
    a.scheduleId == b.scheduleId && a.scheduledFor == b.scheduledFor
  }

  predicate RanAt(run: Run, p: Pending) {
    run.scheduleId == p.scheduleId && run.scheduledFor == p.scheduledFor
  }

  /** Every run and every pending occurrence was taken by a poll, and each by one only. */
  ghost predicate OnceEach(runs: map<Id, Run>, pending: seq<Pending>, fired: map<Id, Book>) {
    && (forall r :: r in runs ==> runs[r].id == r && Took(fired, runs[r].scheduleId, runs[r].scheduledFor))
    && (forall r, q :: r in runs && q in runs && r != q ==>
          runs[r].scheduleId != runs[q].scheduleId || runs[r].scheduledFor != runs[q].scheduledFor)
    && (forall i :: 0 <= i < |pending| ==> Took(fired, pending[i].scheduleId, pending[i].scheduledFor))
    && (forall i, j :: 0 <= i < j < |pending| ==> !SamePoint(pending[i], pending[j]))
    && (forall r, i :: r in runs && 0 <= i < |pending| ==> !RanAt(runs[r], pending[i]))
  }

  lemma PollKeepsOnce(runs: map<Id, Run>, pending: seq<Pending>, fired: map<Id, Book>, fired': map<Id, Book>,
      news: seq<Pending>)
    requires OnceEach(runs, pending, fired)
    requires forall id, t :: Took(fired, id, t) ==> Took(fired', id, t)
    requires forall i :: 0 <= i < |news| ==> Took(fired', news[i].scheduleId, news[i].scheduledFor)
    requires forall i :: 0 <= i < |news| ==> !Took(fired, news[i].scheduleId, news[i].scheduledFor)
    requires forall i, j :: 0 <= i < j < |news| ==> news[i].scheduleId != news[j].scheduleId
    ensures OnceEach(runs, pending + news, fired')
  {
  }

  lemma CreateKeepsOnce(runs: map<Id, Run>, pending: seq<Pending>, fired: map<Id, Book>, id: Id, book: Book)
    requires OnceEach(runs, pending, fired) && id !in fired
    ensures OnceEach(runs, pending, fired[id := book])
  {
  }

  lemma LaunchKeepsOnce(runs: map<Id, Run>, pending: seq<Pending>, fired: map<Id, Book>, k: nat, run: Run)
    requires OnceEach(runs, pending, fired) && k < |pending| && run.id !in runs && RanAt(run, pending[k])
    ensures OnceEach(runs[run.id := run], pending[..k] + pending[k + 1..], fired)
  {
    var rest := pending[..k] + pending[k + 1..];
    assert forall i :: 0 <= i < |rest| ==> rest[i] == pending[if i < k then i else i + 1];
  }

  /** What a poll takes has not been taken before. */
  lemma PollTakesNew(d: Dict<Schedule>, due: seq<Id>, fired: map<Id, Book>, now: Time)
    requires BooksFit(d, fired) && Distinct(due)
    requires forall id :: id in due ==> id in d.vals && Due(d.vals[id], now) && d.vals[id].nextRunAt.Some?
    ensures var fired', news := NotedAll(fired, d.vals, due), PendingOf(d.vals, due, now);
            && (forall id, t :: Took(fired, id, t) ==> Took(fired', id, t))
            && (forall i :: 0 <= i < |news| ==>
                  && Took(fired', news[i].scheduleId, news[i].scheduledFor)
                  && !Took(fired, news[i].scheduleId, news[i].scheduledFor))
            && (forall i, j :: 0 <= i < j < |news| ==> news[i].scheduleId != news[j].scheduleId)
  {
    var fired', news := NotedAll(fired, d.vals, due), PendingOf(d.vals, due, now);
    hide PendingOf, Sensible, StartPassed, Due, GoodBook;
    forall i | 0 <= i < |news| ensures Took(fired', news[i].scheduleId, news[i].scheduledFor)
                               ensures !Took(fired, news[i].scheduleId, news[i].scheduledFor)
    {
      var id := due[i];
      assert id in due && GoesOn(fired[id], d.vals[id]) && GoodBook(fired[id]);
      LaterThanAll(fired[id], d.vals[id].nextRunAt.value);
    }
  }

  lemma LaterThanAll(b: Book, t: Time)
    requires GoodBook(b) && (b.times != [] ==> t > Last(b.times))
    ensures t !in b.times
  {
  }

  // ---------------------------------------------------------------- one run at a time

  /** The runs that are alive belong to different schedules, and the running set names
      exactly those schedules. */
  ghost predicate OneAtATime(runs: map<Id, Run>, running: set<Id>, live: set<Id>) {
    && (forall r :: r in live ==> r in runs && runs[r].status == Running && runs[r].scheduleId in running)
    && (forall r, q :: r in live && q in live && r != q ==> runs[r].scheduleId != runs[q].scheduleId)
    && (forall id :: id in running ==> exists r :: r in live && runs[r].scheduleId == id)
  }

  lemma LaunchKeepsOne(runs: map<Id, Run>, running: set<Id>, live: set<Id>, run: Run)
    requires OneAtATime(runs, running, live) && run.id !in runs
    requires run.status == Running ==> run.scheduleId !in running
    ensures var starts := run.status == Running;
            OneAtATime(runs[run.id := run], if starts then running + {run.scheduleId} else running,
                       if starts then live + {run.id} else live)
  {
    var runs' := runs[run.id := run];
    assert forall r :: r in live ==> runs'[r] == runs[r];
    forall id | id in running ensures exists r :: r in live && runs'[r].scheduleId == id {
      var r :| r in live && runs[r].scheduleId == id;
      assert runs'[r].scheduleId == id;
    }
    assert runs'[run.id].scheduleId == run.scheduleId;
  }

  lemma FinishKeepsOne(runs: map<Id, Run>, running: set<Id>, live: set<Id>, runId: Id, status: RunStatus)
    requires OneAtATime(runs, running, live) && runId in live
    ensures OneAtATime(runs[runId := runs[runId].(status := status)], running - {runs[runId].scheduleId},
            live - {runId})
  {
    var runs' := runs[runId := runs[runId].(status := status)];
    forall id | id in running && id != runs[runId].scheduleId
      ensures exists r :: r in live - {runId} && runs'[r].scheduleId == id {
      var r :| r in live && runs[r].scheduleId == id;
      assert r in live - {runId} && runs'[r].scheduleId == id;
    }
  }

  lemma FinishKeepsOnce(runs: map<Id, Run>, pending: seq<Pending>, fired: map<Id, Book>, runId: Id, status: RunStatus)
    requires OnceEach(runs, pending, fired) && runId in runs
    ensures OnceEach(runs[runId := runs[runId].(status := status)], pending, fired)
  {
    var runs' := runs[runId := runs[runId].(status := status)];
    assert forall r :: r in runs' ==>
      r in runs && runs'[r].id == runs[r].id && runs'[r].scheduleId == runs[r].scheduleId
        && runs'[r].scheduledFor == runs[r].scheduledFor;
  }

  // ---------------------------------------------------------------- every run

  ghost predicate Inv(s: System) {
    && BooksFit(Schedules(s.log), s.fired)
    && OnceEach(Runs(s.log), s.pending, s.fired)
    && OneAtATime(Runs(s.log), s.running, s.live)
  }

  lemma CreateKeeps(m: Matcher, s: System, a: Action)
    requires Inv(s) && a.Create?
    ensures Inv(Step(m, s, a))
  {
    hide BooksFit, OneAtATime, OnceEach;
    if a.id !in s.fired {
      var r := Saved(Created(m, a.id, a.trigger, a.endAt, a.now));
      CreateKeepsBooks(m, Schedules(s.log), s.fired, a.id, a.trigger, a.endAt, a.now);
      LogSnoc(s.log, r);
      hide Runs, Schedules, Created;
      CreateKeepsOnce(Runs(s.log), s.pending, s.fired, a.id, Book(a.trigger, a.endAt, []));
    }
  }

  lemma PollKeeps(m: Matcher, s: System, now: Time)
    requires Inv(s)
    ensures Inv(Step(m, s, Poll(now)))
  {
    PollDoes(m, s, now);
    var s', d := Step(m, s, Poll(now)), Schedules(s.log);
    var due := DueIds(d.vals, d.keys, now);
    hide Step, Schedules, Runs, OneAtATime, DueIds, Took, OnceEach;
    PollKeepsBooks(m, d, Schedules(s'.log), due, s.fired, now);
    PollTakesNew(d, due, s.fired, now);
    hide BooksFit, NotedAll, PendingOf;
    PollKeepsOnce(Runs(s.log), s.pending, s.fired, s'.fired, PendingOf(d.vals, due, now));
  }

  lemma PollDiesDoes(m: Matcher, s: System, now: Time, cut: nat) returns (moved: seq<Id>)
    requires Keyed(Schedules(s.log))
    ensures var s', d := Step(m, s, PollDies(now, cut)), Schedules(s.log);
            && Distinct(moved) && (forall k :: k in moved ==> k in d.vals && Due(d.vals[k], now))
            && Moved(m, d, Schedules(s'.log), moved, now) && Runs(s'.log) == Runs(s.log)
            && s'.fired == NotedAll(s.fired, d.vals, moved)
            && s'.pending == [] && s'.running == {} && s'.live == {} && s'.lost == s.lost + s.live
  {
    var d := Schedules(s.log);
    hide Schedules, Runs, DueIds, Due, Updates, NotedAll, Advance, Distinct, Moved, FirstOf;
    var due := DueIds(d.vals, d.keys, now);
    moved := FirstOf(due, cut);
    DueDistinct(d.vals, d.keys, now);
    FirstDistinct(due, cut);
    assert Step(m, s, PollDies(now, cut)).log == s.log + Updates(m, d.vals, moved, now);
    UpdatesApply(m, s.log, moved, now);
  }

  lemma FirstDistinct(ids: seq<Id>, n: nat)
    requires Distinct(ids)
    ensures Distinct(FirstOf(ids, n))
  {
  }

  /** Wherever in its appends a poll dies: the schedules already moved on have taken their
      occurrences, the others are as they were. */
  lemma PollDiesKeeps(m: Matcher, s: System, now: Time, cut: nat)
    requires Inv(s)
    ensures Inv(Step(m, s, PollDies(now, cut)))
  {
    var s', d := Step(m, s, PollDies(now, cut)), Schedules(s.log);
    hide Step, Schedules, Runs, OnceEach, Took;
    var moved := PollDiesDoes(m, s, now, cut);
    PollKeepsBooks(m, d, Schedules(s'.log), moved, s.fired, now);
    PollTakesNew(d, moved, s.fired, now);
    hide BooksFit, NotedAll, Moved, Due, Distinct, PendingOf;
    PollKeepsOnce(Runs(s.log), s.pending, s.fired, s'.fired, []);
    WithoutPending(Runs(s.log), s.pending + [], s'.fired);
    assert OneAtATime(Runs(s'.log), {}, {});
  }

  lemma WithoutPending(runs: map<Id, Run>, pending: seq<Pending>, fired: map<Id, Book>)
    requires OnceEach(runs, pending, fired)
    ensures OnceEach(runs, [], fired)
  {
  }

  lemma LaunchKeeps(m: Matcher, s: System, a: Action)
    requires Inv(s) && a.Launch?
    ensures Inv(Step(m, s, a))
  {
    hide BooksFit, OneAtATime, OnceEach;
    if a.k < |s.pending| && a.runId !in Runs(s.log) {
      var p := s.pending[a.k];
      var run := Run(a.runId, p.scheduleId, p.scheduledFor, Status(s, p, a.runner));
      LogSnoc(s.log, RunSaved(run));
      hide Runs, Schedules;
      RecordKeepsBooks(Schedules(s.log), s.fired, RunSaved(run));
      LaunchKeepsOnce(Runs(s.log), s.pending, s.fired, a.k, run);
      LaunchKeepsOne(Runs(s.log), s.running, s.live, run);
    }
  }

  lemma FinishKeeps(m: Matcher, s: System, a: Action)
    requires Inv(s) && a.Finish?
    ensures Inv(Step(m, s, a))
  {
    hide BooksFit, OneAtATime;
    if a.runId in s.live && a.runId in Runs(s.log) {
      var status := EndStatus(a.end);
      var run := Runs(s.log)[a.runId].(status := status);
      assert run.id == a.runId;
      LogSnoc(s.log, RunSaved(run));
      hide Runs, Schedules, OnceEach;
      RecordKeepsBooks(Schedules(s.log), s.fired, RunSaved(run));
      FinishKeepsOnce(Runs(s.log), s.pending, s.fired, a.runId, status);
      FinishKeepsOne(Runs(s.log), s.running, s.live, a.runId, status);
    }
  }

  lemma StepKeepsInv(m: Matcher, s: System, a: Action)
    requires Inv(s)
    ensures Inv(Step(m, s, a))
  {
    match a
    case Create(_, _, _, _) => CreateKeeps(m, s, a);
    case Poll(now) => PollKeeps(m, s, now);
    case PollDies(now, cut) => PollDiesKeeps(m, s, now, cut);
    case Launch(_, _, _) => LaunchKeeps(m, s, a);
    case Finish(_, _) => FinishKeeps(m, s, a);
    case Delete(id) =>
      hide BooksFit, OneAtATime, OnceEach;
      RecordKeepsBooks(Schedules(s.log), s.fired, Deleted(id));
      LogSnoc(s.log, Deleted(id));
      hide Runs, Schedules;
    case Restart =>
      hide BooksFit, Runs, Schedules;
  }

  lemma {:induction false} RunKeepsInv(m: Matcher, actions: seq<Action>)
    ensures Inv(After(m, actions))
    decreases |actions|
  {
    if actions != [] {
      hide Inv, Step;
      RunKeepsInv(m, actions[..|actions| - 1]);
      StepKeepsInv(m, After(m, actions[..|actions| - 1]), Last(actions));
    }
  }

  /** Over every run, through every reload and restart: the occurrences of each schedule
      strictly increase and fit its trigger and its end, no occurrence has two runs, and
      no schedule has two runs alive. */
  lemma EveryRun(m: Matcher, actions: seq<Action>)
    ensures var s := After(m, actions);
            && (forall id :: id in s.fired ==> GoodBook(s.fired[id]))
            && OnceEach(Runs(s.log), s.pending, s.fired)
            && OneAtATime(Runs(s.log), s.running, s.live)
  {
    RunKeepsInv(m, actions);
  }

  // ---------------------------------------------------------------- what a poll takes, and what becomes of it

  /** More than a period and the jitter late for an interval, more than a minute for cron;
      a one-shot is never too late. */
  ghost predicate TooLate(trigger: Trigger, at: Time, now: Time) {
    || (trigger.Interval? && now - at > trigger.seconds * SECOND + JITTER)
    || (trigger.Cron? && now - at > MINUTE)
  }

  /** A poll takes the schedules that are enabled and whose next occurrence has come. */
  ghost predicate HasCome(s: Schedule, now: Time) {
    s.enabled && s.nextRunAt.Some? && s.nextRunAt.value <= now
  }

  ghost predicate TakenAs(p: Pending, id: Id, s: Schedule, now: Time) {
    && s.nextRunAt.Some?
    && p == Pending(id, s.nextRunAt.value, TooLate(s.trigger, s.nextRunAt.value, now))
  }

  /** `news` has one occurrence of each schedule that has come, and of no other. */
  ghost predicate TakesDue(d: map<Id, Schedule>, news: seq<Pending>, now: Time) {
    && (forall i :: 0 <= i < |news| ==>
          && news[i].scheduleId in d && HasCome(d[news[i].scheduleId], now)
          && TakenAs(news[i], news[i].scheduleId, d[news[i].scheduleId], now))
    && (forall id :: id in d && HasCome(d[id], now) ==> exists i :: 0 <= i < |news| && news[i].scheduleId == id)
    && (forall i, j :: 0 <= i < j < |news| ==> news[i].scheduleId != news[j].scheduleId)
  }

  /** A poll takes one occurrence of each schedule that has come and of no other, behind
      those that wait already, and leaves the schedules that have not come alone. */
  lemma PollTakesExactly(m: Matcher, s: System, now: Time)
    requires Inv(s)
    ensures var s', d := Step(m, s, Poll(now)), Schedules(s.log).vals;
            var d' := Schedules(s'.log).vals;
            && |s'.pending| >= |s.pending| && s'.pending[..|s.pending|] == s.pending
            && TakesDue(d, s'.pending[|s.pending|..], now)
            && d'.Keys == d.Keys
            && (forall id :: id in d && !HasCome(d[id], now) ==> d'[id] == d[id])
  {
    OwnIds(s);
    PollDoes(m, s, now);
    var d := Schedules(s.log);
    var due := DueIds(d.vals, d.keys, now);
    hide Step, Schedules, Runs, Inv, TakesDue, PendingOf, Advance;
    DueTaken(d, now);
    var news := PendingOf(d.vals, due, now);
    assert Step(m, s, Poll(now)).pending[|s.pending|..] == news;
  }

  lemma DueTaken(d: Dict<Schedule>, now: Time)
    requires Keyed(d)
    ensures TakesDue(d.vals, PendingOf(d.vals, DueIds(d.vals, d.keys, now), now), now)
  {
    var due := DueIds(d.vals, d.keys, now);
    DueDistinct(d.vals, d.keys, now);
    PendingAre(d.vals, due, now);
    assert forall id :: id in due <==> id in d.vals && HasCome(d.vals[id], now);
    hide PendingOf, DueIds, Due, HasCome;
    TakenDue(d.vals, due, PendingOf(d.vals, due, now), now);
  }

  lemma TakenDue(d: map<Id, Schedule>, due: seq<Id>, news: seq<Pending>, now: Time)
    requires Distinct(due) && |news| == |due| && forall id :: id in due <==> id in d && HasCome(d[id], now)
    requires forall i :: 0 <= i < |due| ==> due[i] in d && TakenAs(news[i], due[i], d[due[i]], now)
    ensures TakesDue(d, news, now)
  {
    hide HasCome, TooLate;
    assert forall i :: 0 <= i < |due| ==> due[i] in due && news[i].scheduleId == due[i];
    hide TakenAs;
    forall id | id in d && HasCome(d[id], now) ensures exists i :: 0 <= i < |news| && news[i].scheduleId == id {
      assert id in due;
      var i :| 0 <= i < |due| && due[i] == id;
      assert news[i].scheduleId == id;
    }
  }

  lemma {:induction false} PendingAre(vals: map<Id, Schedule>, ids: seq<Id>, now: Time)
    requires forall k :: k in ids ==> k in vals && Due(vals[k], now)
    ensures forall i :: 0 <= i < |ids| ==> TakenAs(PendingOf(vals, ids, now)[i], ids[i], vals[ids[i]], now)
    decreases |ids|
  {
    if ids != [] {
      var front := ids[..|ids| - 1];
      PendingAre(vals, front, now);
      assert forall i :: 0 <= i < |front| ==> PendingOf(vals, ids, now)[i] == PendingOf(vals, front, now)[i];
    }
  }

  // ---------------------------------------------------------------- which occurrence is next

  /** `t` is an occurrence of the trigger behind `after`: a one-shot has its time, an interval
      the points of its lattice from its start on or else the one point a period behind, cron
      the matching minutes of the next 370 days. */
  ghost predicate Occurs(m: Matcher, trigger: Trigger, after: Time, t: Time) {
    && t > after
    && match trigger
       case Once(at) => t == at
       case Interval(seconds, Some(start)) => t >= start && (t - start) % (seconds * SECOND) == 0
       case Interval(seconds, None) => t == after + seconds * SECOND
       case Cron(expression) => t % MINUTE == 0 && t <= after + CRON_MINUTES * MINUTE && m(expression, t)
  }

  /** The first occurrence behind `after` when it is not behind the end, else none. */
  ghost predicate IsNext(m: Matcher, trigger: Trigger, endAt: Option<Time>, after: Time, next: Option<Time>) {
    match next
    case Some(t) =>
      && Occurs(m, trigger, after, t) && (endAt.Some? ==> t <= endAt.value)
      && forall u :: Occurs(m, trigger, after, u) ==> t <= u
    case None => forall u :: Occurs(m, trigger, after, u) ==> endAt.Some? && u > endAt.value
  }

  lemma NextIsFirst(m: Matcher, trigger: Trigger, endAt: Option<Time>, after: Time)
    ensures IsNext(m, trigger, endAt, after, NextOccurrence(m, trigger, endAt, after))
  {
    var r := Candidate(m, trigger, after);
    assert r.Some? ==> Occurs(m, trigger, after, r.value) by {
      if r.Some? { CandidateOccurs(m, trigger, after); }
    }
    forall u | Occurs(m, trigger, after, u) ensures r.Some? && r.value <= u {
      CandidateIsFirst(m, trigger, after, u);
    }
    hide Candidate, Occurs;
  }

  lemma CandidateOccurs(m: Matcher, trigger: Trigger, after: Time)
    requires Candidate(m, trigger, after).Some?
    ensures Occurs(m, trigger, after, Candidate(m, trigger, after).value)
  {
    if trigger.Cron? {
      hide NextCron;
      CronIsNear(after, Candidate(m, trigger, after).value);
    } else {
      CandidateLater(m, trigger, after);
      if trigger.Interval? && trigger.startAt.Some? && trigger.startAt.value <= after {
        StepPast(trigger.startAt.value, trigger.seconds * SECOND, after);
      }
    }
  }

  lemma CronIsNear(after: Time, t: Time)
    requires var first := FloorMinute(after) + MINUTE;
             first <= t < first + CRON_MINUTES * MINUTE && (t - first) % MINUTE == 0
    ensures after < t <= after + CRON_MINUTES * MINUTE && t % MINUTE == 0
  {
    var first := FloorMinute(after) + MINUTE;
    var k := (t - first) / MINUTE;
    assert t == (k + first / MINUTE) * MINUTE;
    assert k < CRON_MINUTES;
  }

  lemma CandidateIsFirst(m: Matcher, trigger: Trigger, after: Time, u: Time)
    requires Occurs(m, trigger, after, u)
    ensures Candidate(m, trigger, after).Some? && Candidate(m, trigger, after).value <= u
  {
    if trigger.Interval? && trigger.startAt.Some? && trigger.startAt.value <= after {
      var a, d := trigger.startAt.value, trigger.seconds * SECOND;
      StepPast(a, d, after);
      FirstPast(a, d, after, a + ((after - a) / d + 1) * d, u);
    } else if trigger.Cron? {
      CronIsFirst(m, trigger.expression, after, u);
      hide NextCron, FloorMinute;
    }
  }

  lemma CronIsFirst(m: Matcher, expression: string, after: Time, u: Time)
    requires after < u <= after + CRON_MINUTES * MINUTE && u % MINUTE == 0 && m(expression, u)
    ensures var r := NextCron(m, expression, FloorMinute(after) + MINUTE, CRON_MINUTES); r.Some? && r.value <= u
  {
    hide NextCron;
    var first := FloorMinute(after) + MINUTE;
    var k := u / MINUTE - first / MINUTE;
    MinutesBetween(first, u);
    NextCronIsFirst(m, expression, first, CRON_MINUTES, k);
  }

  lemma MinutesBetween(first: Time, u: Time)
    requires first % MINUTE == 0 && u % MINUTE == 0 && first - MINUTE < u < first + CRON_MINUTES * MINUTE
    ensures 0 <= u / MINUTE - first / MINUTE < CRON_MINUTES && first + (u / MINUTE - first / MINUTE) * MINUTE == u
  {
  }

  lemma FirstPast(origin: Time, d: int, now: Time, t: Time, u: Time)
    requires d > 0 && (t - origin) % d == 0 && (u - origin) % d == 0 && t <= now + d && u > now
    ensures t <= u
  {
    var i, j := (t - origin) / d, (u - origin) / d;
    assert t - origin == i * d && u - origin == j * d;
    assert (i - j) * d == t - u;
    assert i - j >= 1 ==> (i - j) * d >= d;
    assert i - j <= 0 ==> (i - j) * d <= 0;
  }

  /** What a poll makes of a schedule it takes: a one-shot is over. The next occurrence is the
      first one behind the occurrence taken, or, when that was too late, the first one behind
      the poll, for an interval on the lattice of the occurrence taken. */
  ghost predicate GoneOn(m: Matcher, s: Schedule, r: Schedule, now: Time) {
    && s.nextRunAt.Some?
    && (var at := s.nextRunAt.value;
        var late := TooLate(s.trigger, at, now);
        var trigger := if s.trigger.Interval? && late then Interval(s.trigger.seconds, Some(at)) else s.trigger;
        && r.id == s.id && r.trigger == s.trigger && r.endAt == s.endAt
        && (r.enabled <==> !s.trigger.Once?)
        && IsNext(m, trigger, s.endAt, if late then now else at, r.nextRunAt))
  }

  /** Every schedule that has come goes on like that, in the file that a reload reads. */
  lemma PollGoesOn(m: Matcher, s: System, now: Time)
    requires Inv(s)
    ensures var d, d' := Schedules(s.log).vals, Schedules(Step(m, s, Poll(now)).log).vals;
            forall id :: id in d && HasCome(d[id], now) ==> id in d' && GoneOn(m, d[id], d'[id], now)
  {
    OwnIds(s);
    PollDoes(m, s, now);
    var d, d' := Schedules(s.log), Schedules(Step(m, s, Poll(now)).log);
    hide Step, Schedules, Runs, Inv, NotedAll, PendingOf;
    forall id | id in d.vals && HasCome(d.vals[id], now)
      ensures id in d'.vals && GoneOn(m, d.vals[id], d'.vals[id], now)
    {
      AdvanceGoesOn(m, d.vals[id], now);
      assert id in d.keys;
    }
  }

  lemma AdvanceGoesOn(m: Matcher, s: Schedule, now: Time)
    requires Due(s, now)
    ensures GoneOn(m, s, Advance(m, s, now), now)
  {
    var at := s.nextRunAt.value;
    var trigger :=
      if s.trigger.Interval? && TooLate(s.trigger, at, now) then Interval(s.trigger.seconds, Some(at)) else s.trigger;
    NextIsFirst(m, trigger, s.endAt, if TooLate(s.trigger, at, now) then now else at);
    hide IsNext, NextCron, FloorMinute;
  }

  /** A new schedule waits for the first occurrence behind now, a one-shot and cron for the
      first one behind a second ago. */
  lemma CreateWaits(m: Matcher, s: System, id: Id, trigger: Trigger, endAt: Option<Time>, now: Time)
    requires id !in s.fired
    ensures var d := Schedules(Step(m, s, Create(id, trigger, endAt, now)).log).vals;
            && id in d && d[id].id == id && d[id].trigger == trigger && d[id].endAt == endAt && d[id].enabled
            && IsNext(m, trigger, endAt, if trigger.Interval? then now else now - SECOND, d[id].nextRunAt)
  {
    NextIsFirst(m, trigger, endAt, if trigger.Interval? then now else now - SECOND);
    hide IsNext, NextOccurrence, Schedules, Runs;
    LogSnoc(s.log, Saved(Created(m, id, trigger, endAt, now)));
  }

  /** An occurrence that a poll has taken starts a run when it was not too late, a runner is
      there and no run of its schedule is alive. Without a runner it fails; too late, or
      beside a live run, it is skipped. Either way that is what the log says. */
  lemma LaunchDecides(m: Matcher, s: System, now: Time, k: nat, runId: Id, runner: bool)
    requires Inv(s) && runId !in Runs(s.log)
    requires |s.pending| <= k < |Step(m, s, Poll(now)).pending|
    ensures var polled := Step(m, s, Poll(now));
            var p, s' := polled.pending[k], Step(m, polled, Launch(k, runId, runner));
            var alive := exists r :: r in s.live && r in Runs(s.log) && Runs(s.log)[r].scheduleId == p.scheduleId;
            && p.scheduleId in Schedules(s.log).vals
            && (var trigger := Schedules(s.log).vals[p.scheduleId].trigger;
                && Runs(s'.log) == Runs(s.log)[runId := Run(runId, p.scheduleId, p.scheduledFor,
                     if TooLate(trigger, p.scheduledFor, now) || alive then Skipped
                     else if !runner then Failed else Running)]
                && (runId in s'.live <==> !TooLate(trigger, p.scheduledFor, now) && !alive && runner))
  {
    var polled := Step(m, s, Poll(now));
    var p := polled.pending[k];
    assert p == polled.pending[|s.pending|..][k - |s.pending|];
    assert p.scheduleId in Schedules(s.log).vals
           && TakenAs(p, p.scheduleId, Schedules(s.log).vals[p.scheduleId], now) by {
      PollTakesExactly(m, s, now);
    }
    assert polled.running == s.running && polled.live == s.live && Runs(polled.log) == Runs(s.log) by {
      OwnIds(s);
      PollDoes(m, s, now);
    }
    AliveIs(s, p.scheduleId);
    assert runId !in s.live by { LiveRecorded(s); }
    LaunchIs(m, polled, k, runId, runner);
    hide *;
  }

  lemma LaunchIs(m: Matcher, s: System, k: nat, runId: Id, runner: bool)
    requires k < |s.pending| && runId !in Runs(s.log) && runId !in s.live
    ensures var p, s' := s.pending[k], Step(m, s, Launch(k, runId, runner));
            && Runs(s'.log) == Runs(s.log)[runId := Run(runId, p.scheduleId, p.scheduledFor,
                 if p.missed || p.scheduleId in s.running then Skipped else if !runner then Failed else Running)]
            && (runId in s'.live <==> !p.missed && p.scheduleId !in s.running && runner)
  {
    var p := s.pending[k];
    hide Runs, Schedules;
    LogSnoc(s.log, RunSaved(Run(runId, p.scheduleId, p.scheduledFor, Status(s, p, runner))));
  }

  /** A live run that returns is recorded as completed and one that raises as failed; what
      is no Exception leaves it as it was. In each case its schedule is free again and no other
      run is touched. */
  lemma FinishSays(m: Matcher, s: System, runId: Id, end: RunEnd)
    requires Inv(s) && runId in s.live
    ensures var s' := Step(m, s, Finish(runId, end));
            && runId in Runs(s.log) && Runs(s.log)[runId].status == Running
            && (var run := Runs(s.log)[runId];
                && Runs(s'.log) == Runs(s.log)[runId := Run(runId, run.scheduleId, run.scheduledFor,
                     if end.Returns? then Completed else if end.Raises? then Failed else Running)]
                && s'.running == s.running - {run.scheduleId})
            && s'.live == s.live - {runId} && Schedules(s'.log) == Schedules(s.log)
  {
    OwnIds(s);
    LiveRecorded(s);
    hide Inv, Runs, Schedules;
    LogSnoc(s.log, RunSaved(Runs(s.log)[runId].(status := EndStatus(end))));
  }

  /** A deleted schedule is gone and every other one is as it was. */
  lemma DeleteForgets(m: Matcher, s: System, id: Id)
    ensures var s' := Step(m, s, Delete(id));
            && Schedules(s'.log).vals == Schedules(s.log).vals - {id}
            && Runs(s'.log) == Runs(s.log) && s'.pending == s.pending
  {
    hide Runs, Schedules;
    LogSnoc(s.log, Deleted(id));
  }

  lemma AliveIs(s: System, id: Id)
    requires Inv(s)
    ensures id in s.running <==> exists r :: r in s.live && r in Runs(s.log) && Runs(s.log)[r].scheduleId == id
  {
    hide BooksFit, OnceEach;
  }

  ghost predicate OnTime(s: Schedule, now: Time) {
    s.enabled && s.nextRunAt.Some? ==>
      && (s.trigger.Interval? ==> s.nextRunAt.value >= now - JITTER)
      && (s.trigger.Cron? ==> s.nextRunAt.value > now - MINUTE)
      && (s.trigger.Once? ==> s.nextRunAt.value > now)
  }

  /** After a poll no enabled schedule is behind it by more than the jitter, or for cron
      by as much as a minute, however late the poll was. */
  lemma PollCatchesUp(m: Matcher, actions: seq<Action>, now: Time, id: Id)
    requires id in Schedules(After(m, actions + [Poll(now)]).log).vals
    ensures OnTime(Schedules(After(m, actions + [Poll(now)]).log).vals[id], now)
  {
    hide Schedules, Step;
    var s := After(m, actions);
    RunKeepsInv(m, actions);
    assert (actions + [Poll(now)])[..|actions|] == actions;
    assert After(m, actions + [Poll(now)]) == Step(m, s, Poll(now));
    hide After, OnceEach, OneAtATime;
    PollDoes(m, s, now);
    var d := Schedules(s.log);
    var due := DueIds(d.vals, d.keys, now);
    var d' := Schedules(Step(m, s, Poll(now)).log);
    hide DueIds, BooksFit, Polled, PendingOf, NotedAll, OnTime;
    AfterPollOnTime(m, d, d', due, s.fired, now, id);
  }

  lemma AfterPollOnTime(m: Matcher, d: Dict<Schedule>, d': Dict<Schedule>, due: seq<Id>, fired: map<Id, Book>,
      now: Time, id: Id)
    requires BooksFit(d, fired) && Polled(m, d, d', due, now) && id in d'.vals
    ensures OnTime(d'.vals[id], now)
  {
    hide GoodBook, Advance, Distinct;
    assert id in d.vals && GoesOn(fired[id], d.vals[id]);
    hide BooksFit, Sensible, StartPassed;
    if id in due { AdvanceMovesOn(m, d.vals[id], now); }
  }

  /** The runs that the log calls running are those alive and those lost. */
  ghost predicate LogLive(runs: map<Id, Run>, live: set<Id>, lost: set<Id>) {
    && (forall r :: r in runs ==> (runs[r].status == Running <==> r in live || r in lost))
    && (forall r :: r in lost ==> r in runs && r !in live)
  }

  /** A step that cannot leave a run "running" behind. */
  predicate Orderly(a: Action) {
    a != Restart && !a.PollDies? && !(a.Finish? && a.end.Breaks?)
  }

  ghost predicate AllOrderly(actions: seq<Action>) {
    forall k :: 0 <= k < |actions| ==> Orderly(actions[k])
  }

  /** What the log shows as running is alive or was lost, and nothing is lost unless the
      service died or a runner raised what is not an Exception. */
  lemma {:induction false} LogShowsLive(m: Matcher, actions: seq<Action>)
    ensures var s := After(m, actions);
            LogLive(Runs(s.log), s.live, s.lost) && (AllOrderly(actions) ==> s.lost == {})
    decreases |actions|
  {
    if actions != [] {
      hide Step, Runs, LogLive, Inv, Orderly;
      var front, a := actions[..|actions| - 1], Last(actions);
      LogShowsLive(m, front);
      RunKeepsInv(m, front);
      assert After(m, actions) == Step(m, After(m, front), a);
      assert AllOrderly(actions) ==> AllOrderly(front) && Orderly(a);
      hide After, AllOrderly;
      LiveStep(m, After(m, front), a);
    }
  }

  lemma LiveStep(m: Matcher, s: System, a: Action)
    requires Inv(s) && LogLive(Runs(s.log), s.live, s.lost)
    ensures var s' := Step(m, s, a); LogLive(Runs(s'.log), s'.live, s'.lost)
    ensures Orderly(a) ==> Step(m, s, a).lost == s.lost
  {
    hide LogLive, Runs, Schedules;
    LiveRecorded(s);
    OwnIds(s);
    hide Inv;
    match a
    case Create(_, _, _, _) => LiveSame(m, s, a);
    case Delete(_) => LiveSame(m, s, a);
    case Poll(now) => LivePolled(m, s, now);
    case PollDies(now, cut) => LiveDied(m, s, now, cut);
    case Launch(_, _, _) => LiveLaunch(m, s, a);
    case Finish(_, _) => LiveEnds(m, s, a);
    case Restart => LiveRestarts(Runs(s.log), s.live, s.lost);
  }

  lemma OwnIds(s: System)
    requires Inv(s)
    ensures Keyed(Schedules(s.log)) && forall r :: r in Runs(s.log) ==> Runs(s.log)[r].id == r
  {
    hide OneAtATime;
  }

  lemma LivePolled(m: Matcher, s: System, now: Time)
    requires Keyed(Schedules(s.log)) && LogLive(Runs(s.log), s.live, s.lost)
    ensures var s' := Step(m, s, Poll(now)); LogLive(Runs(s'.log), s'.live, s'.lost) && s'.lost == s.lost
  {
    PollDoes(m, s, now);
    hide Step, Runs, Schedules, LogLive;
  }

  lemma LiveDied(m: Matcher, s: System, now: Time, cut: nat)
    requires Keyed(Schedules(s.log)) && LogLive(Runs(s.log), s.live, s.lost)
    requires forall r :: r in s.live ==> r in Runs(s.log)
    ensures var s' := Step(m, s, PollDies(now, cut)); LogLive(Runs(s'.log), s'.live, s'.lost)
  {
    hide Step, Schedules, Runs, LogLive, Moved, NotedAll;
    var moved := PollDiesDoes(m, s, now, cut);
    LiveRestarts(Runs(s.log), s.live, s.lost);
  }

  lemma LiveSame(m: Matcher, s: System, a: Action)
    requires (a.Create? || a.Delete?) && LogLive(Runs(s.log), s.live, s.lost)
    ensures var s' := Step(m, s, a); LogLive(Runs(s'.log), s'.live, s'.lost) && s'.lost == s.lost
  {
    hide LogLive, Runs, Schedules, Created;
    if a.Create? {
      LogSnoc(s.log, Saved(Created(m, a.id, a.trigger, a.endAt, a.now)));
    } else {
      LogSnoc(s.log, Deleted(a.id));
    }
  }

  lemma LiveRestarts(runs: map<Id, Run>, live: set<Id>, lost: set<Id>)
    requires LogLive(runs, live, lost) && forall r :: r in live ==> r in runs
    ensures LogLive(runs, {}, lost + live)
  {
  }

  lemma LiveLaunch(m: Matcher, s: System, a: Action)
    requires a.Launch? && LogLive(Runs(s.log), s.live, s.lost) && forall r :: r in s.live ==> r in Runs(s.log)
    ensures LogLive(Runs(Step(m, s, a).log), Step(m, s, a).live, Step(m, s, a).lost)
    ensures Orderly(a) ==> Step(m, s, a).lost == s.lost
  {
    hide Runs, Schedules;
    if a.k < |s.pending| && a.runId !in Runs(s.log) {
      var p := s.pending[a.k];
      LogSnoc(s.log, RunSaved(Run(a.runId, p.scheduleId, p.scheduledFor, Status(s, p, a.runner))));
    }
  }

  lemma LiveEnds(m: Matcher, s: System, a: Action)
    requires a.Finish? && LogLive(Runs(s.log), s.live, s.lost) && forall r :: r in Runs(s.log) ==>
             Runs(s.log)[r].id == r
    ensures LogLive(Runs(Step(m, s, a).log), Step(m, s, a).live, Step(m, s, a).lost)
    ensures Orderly(a) ==> Step(m, s, a).lost == s.lost
  {
    hide Runs, Schedules;
    if a.runId in s.live && a.runId in Runs(s.log) {
      LogSnoc(s.log, RunSaved(Runs(s.log)[a.runId].(status := EndStatus(a.end))));
    }
  }

  // ---------------------------------------------------------------- the service

  lemma NothingDue(vals: map<Id, Schedule>, now: Time)
    ensures DueIds(vals, [], now) == [] && PendingOf(vals, [], now) == []
  {
  }

  lemma DueSnoc(vals: map<Id, Schedule>, keys: seq<Id>, i: nat, now: Time)
    requires i < |keys|
    ensures DueIds(vals, keys[..i + 1], now) ==
            if keys[i] in vals && Due(vals[keys[i]], now) then DueIds(vals, keys[..i], now) + [keys[i]]
            else DueIds(vals, keys[..i], now)
  {
    hide Due;
    assert keys[..i + 1][..i] == keys[..i];
  }

  lemma PendingSnoc(vals: map<Id, Schedule>, ids: seq<Id>, k: Id, now: Time)
    requires forall x :: x in ids ==> x in vals && Due(vals[x], now)
    requires k in vals && Due(vals[k], now)
    ensures vals[k].nextRunAt.Some?
    ensures PendingOf(vals, ids + [k], now) ==
            PendingOf(vals, ids, now)
            + [Pending(k, vals[k].nextRunAt.value, Missed(vals[k].trigger, vals[k].nextRunAt.value, now))]
  {
    assert (ids + [k])[..|ids|] == ids;
  }

  /** The service object. `system` is where the protocol stands; each lock region of the
      service, and the end of each run, is one step of it. */
  class SchedulerService {
    const matcher: Matcher
    var log: seq<Record>
    var schedules: Dict<Schedule>
    var runs: map<Id, Run>
    var running: set<Id>
    ghost var system: System

    ghost predicate Valid()
      reads this
    {
      && Inv(system)
      && log == system.log && running == system.running
      && schedules == Schedules(log) && runs == Runs(log)
    }

    /** A new process begins with what the log says. */
    constructor (matcher: Matcher, log: seq<Record>, ghost before: System)
      requires Inv(before) && before.log == log
      ensures this.matcher == matcher && Valid() && system == Step(matcher, before, Restart)
    {
      this.matcher, this.log, running := matcher, log, {};
      schedules, runs := Dict([], map[]), map[];
      system := Step(matcher, before, Restart);
      new;
      StepKeepsInv(matcher, before, Restart);
      Reload();
    }

    method CreateSchedule(id: Id, trigger: Trigger, endAt: Option<Time>, now: Time) returns (schedule: Schedule)
      requires Valid() && id !in system.fired
      modifies this
      ensures Valid() && system == Step(matcher, old(system), Create(id, trigger, endAt, now))
      ensures schedule == Created(matcher, id, trigger, endAt, now)
    {
      var next := Next(trigger, endAt, if trigger.Interval? then now else now - SECOND);
      schedule := Schedule(id, trigger, true, endAt, next);
      hide Inv, Schedules, Runs, NextOccurrence;
      StepKeepsInv(matcher, system, Create(id, trigger, endAt, now));
      LogSnoc(log, Saved(schedule));
      Reload();
      schedules := schedules.Put(id, schedule);
      log := log + [Saved(schedule)];
      system := Step(matcher, system, Create(id, trigger, endAt, now));
    }

    method DeleteSchedule(id: Id) returns (ok: bool)
      requires Valid()
      modifies this
      ensures Valid() && system == Step(matcher, old(system), Delete(id))
      ensures ok <==> id in Schedules(old(log)).vals
    {
      hide Inv, Schedules, Runs;
      Reload();
      ok := id in schedules.vals;
      if ok {
        StepKeepsInv(matcher, system, Delete(id));
        LogSnoc(log, Deleted(id));
        schedules := Dict(Without(schedules.keys, id), schedules.vals - {id});
        log := log + [Deleted(id)];
        system := Step(matcher, system, Delete(id));
      }
    }

    /** What the service has in memory is forgotten; the file is what counts. */
    method Reload()
      modifies this`schedules, this`runs
      ensures schedules == Schedules(log) && runs == Runs(log)
    {
      schedules, runs := Dict([], map[]), map[];
      for i := 0 to |log|
        invariant schedules == Schedules(log[..i]) && runs == Runs(log[..i])
      {
        assert log[..i + 1][..i] == log[..i] && Last(log[..i + 1]) == log[i];
        match log[i] {
          case Saved(s) => schedules := schedules.Put(s.id, s);
          case Deleted(id) => schedules := Dict(Without(schedules.keys, id), schedules.vals - {id});
          case RunSaved(run) => runs := runs[run.id := run];
        }
      }
      assert log[..|log|] == log;
    }

    /** The first lock region of a poll: every due schedule is moved on, in memory and in
        the file, before any run of it is made. */
    method TakeDue(now: Time) returns (due: seq<Pending>)
      requires Valid()
      modifies this
      ensures Valid() && system == Step(matcher, old(system), Poll(now))
      ensures system.pending == old(system).pending + due
    {
      OwnIds(system);
      StepKeepsInv(matcher, system, Poll(now));
      PollIs(matcher, system, now);
      hide *;
      due := MoveDueOn(now);
      system := Step(matcher, system, Poll(now));
    }

    method MoveDueOn(now: Time) returns (due: seq<Pending>)
      requires Keyed(Schedules(log))
      modifies this`log, this`schedules, this`runs
      ensures var d := Schedules(old(log));
              var ids := DueIds(d.vals, d.keys, now);
              due == PendingOf(d.vals, ids, now) && log == old(log) + Updates(matcher, d.vals, ids, now)
      ensures schedules == Schedules(log) && runs == Runs(log)
    {
      hide Schedules, Runs, Updates, DueIds, PendingOf, Due;
      Reload();
      var ids;
      ids, due := CollectDue(now);
      DueDistinct(schedules.vals, schedules.keys, now);
      MoveOn(ids, now);
    }

    method CollectDue(now: Time) returns (ids: seq<Id>, due: seq<Pending>)
      ensures ids == DueIds(schedules.vals, schedules.keys, now)
      ensures due == PendingOf(schedules.vals, ids, now)
    {
      hide DueIds, PendingOf, Due, Missed;
      ids, due := [], [];
      ghost var d := schedules;
      NothingDue(d.vals, now);
      for i := 0 to |schedules.keys|
        invariant ids == DueIds(d.vals, d.keys[..i], now) && due == PendingOf(d.vals, ids, now)
      {
        var k := schedules.keys[i];
        DueSnoc(d.vals, d.keys, i, now);
        if k in schedules.vals && Due(schedules.vals[k], now) {
          PendingSnoc(d.vals, ids, k, now);
          var s := schedules.vals[k];
          due := due + [Pending(k, s.nextRunAt.value, Missed(s.trigger, s.nextRunAt.value, now))];
          ids := ids + [k];
        }
      }
      assert d.keys[..|d.keys|] == d.keys;
    }

    method MoveOn(ids: seq<Id>, now: Time)
      requires schedules == Schedules(log) && runs == Runs(log) && Keyed(schedules)
      requires Distinct(ids) && forall k :: k in ids ==> k in schedules.vals && Due(schedules.vals[k], now)
      modifies this`log, this`schedules
      ensures log == old(log) + Updates(matcher, old(schedules).vals, ids, now)
      ensures schedules == Schedules(log) && runs == Runs(log)
    {
      hide Schedules, Runs, Due, Moved;
      ghost var d, before := schedules, log;
      for i := 0 to |ids|
        invariant log == before + Updates(matcher, d.vals, ids[..i], now)
        invariant schedules == Schedules(log) && runs == Runs(log)
      {
        var k := ids[i];
        assert ids[..i + 1][..i] == ids[..i] && Last(ids[..i + 1]) == k;
        assert k in schedules.vals && schedules.vals[k] == d.vals[k] && Due(d.vals[k], now) by {
          UntouchedYet(matcher, before, ids, i, now);
        }
        var s := schedules.vals[k];
        var next := NextRun(s, now);
        var moved := s.(nextRunAt := next, enabled := s.enabled && !s.trigger.Once?);
        schedules := schedules.Put(moved.id, moved);
        LogSnoc(log, Saved(moved));
        log := log + [Saved(moved)];
      }
      assert ids[..|ids|] == ids;
    }

    method NextRun(s: Schedule, now: Time) returns (next: Option<Time>)
      requires Due(s, now)
      ensures next == Advance(matcher, s, now).nextRunAt
    {
      var at := s.nextRunAt.value;
      if Missed(s.trigger, at, now) {
        if s.trigger.Interval? {
          var candidate := NextAfterMissed(s.trigger.seconds, at, now);
          return if s.endAt.None? || candidate <= s.endAt.value then Some(candidate) else None;
        }
        next := Next(s.trigger, s.endAt, now);
      } else {
        next := Next(s.trigger, s.endAt, at);
      }
    }

    method Next(trigger: Trigger, endAt: Option<Time>, after: Time) returns (next: Option<Time>)
      ensures next == NextOccurrence(matcher, trigger, endAt, after)
    {
      hide NextCron, FloorMinute;
      var candidate;
      match trigger {
        case Once(at) => candidate := if at > after then Some(at) else None;
        case Interval(seconds, startAt) =>
          var delta := seconds * SECOND;
          var first := if startAt.Some? then startAt.value else after + delta;
          if first <= after { first := first + ((after - first) / delta + 1) * delta; }
          candidate := Some(first);
        case Cron(expression) => candidate := FindCron(matcher, expression, after);
      }
      next := if candidate.None? || (endAt.Some? && candidate.value > endAt.value) then None else candidate;
    }

    /** The lock region in which the taken occurrence `p`, the `k`-th that waits, becomes
        a run. */
    method RecordRun(p: Pending, runId: Id, runner: bool, ghost k: nat) returns (run: Run)
      requires Valid() && k < |system.pending| && system.pending[k] == p && runId !in runs
      modifies this
      ensures Valid() && system == Step(matcher, old(system), Launch(k, runId, runner))
      ensures run.id == runId && runId in runs && runs[runId] == run
      ensures run.status == Running <==> runId in system.live && runId !in old(system).live
    {
      hide Inv, Schedules, Runs;
      StepKeepsInv(matcher, system, Launch(k, runId, runner));
      assert runId !in system.live by { LiveRecorded(system); }
      var status := Running;
      if p.missed {
        status := Skipped;
      } else if p.scheduleId in running {
        status := Skipped;
      } else if !runner {
        status := Failed;
      } else {
        running := running + {p.scheduleId};
      }
      run := Run(runId, p.scheduleId, p.scheduledFor, status);
      LogSnoc(log, RunSaved(run));
      runs := runs[runId := run];
      log := log + [RunSaved(run)];
      system := Step(matcher, system, Launch(k, runId, runner));
    }

    /** The end of a run's thread. */
    method EndRun(run: Run, end: RunEnd)
      requires Valid() && run.id in system.live && run.id in runs && runs[run.id] == run
      modifies this
      ensures Valid() && system == Step(matcher, old(system), Finish(run.id, end))
    {
      hide Inv, Schedules, Runs;
      StepKeepsInv(matcher, system, Finish(run.id, end));
      LiveRecorded(system);
      var status := run.status;
      if end.Returns? {
        status := Completed;
      } else if end.Raises? {
        status := Failed;
      }
      var ended := run.(status := status);
      LogSnoc(log, RunSaved(ended));
      running := running - {run.scheduleId};
      runs := runs[run.id := ended];
      log := log + [RunSaved(ended)];
      system := Step(matcher, system, Finish(run.id, end));
    }
  }

  lemma PollIs(m: Matcher, s: System, now: Time)
    requires Keyed(Schedules(s.log))
    ensures var s', d := Step(m, s, Poll(now)), Schedules(s.log);
            var due := DueIds(d.vals, d.keys, now);
            && s'.log == s.log + Updates(m, d.vals, due, now)
            && s'.pending == s.pending + PendingOf(d.vals, due, now) && s'.running == s.running
            && Distinct(d.keys)
  {
  }

  lemma LiveRecorded(s: System)
    requires Inv(s)
    ensures forall r :: r in s.live ==> r in Runs(s.log) && Runs(s.log)[r].status == Running
  {
    hide BooksFit, OnceEach;
  }

  lemma UntouchedYet(m: Matcher, log: seq<Record>, ids: seq<Id>, i: nat, now: Time)
    requires Keyed(Schedules(log)) && Distinct(ids) && i < |ids|
    requires forall k :: k in ids ==> k in Schedules(log).vals && Due(Schedules(log).vals[k], now)
    ensures forall k :: k in ids[..i] ==> k in ids
    ensures var d, d' := Schedules(log), Schedules(log + Updates(m, Schedules(log).vals, ids[..i], now));
            ids[i] in d'.vals && d'.vals[ids[i]] == d.vals[ids[i]] && Due(d.vals[ids[i]], now)
  {
    hide Schedules, Runs, Due, Advance;
    var front := ids[..i];
    assert forall j :: 0 <= j < |front| ==> front[j] == ids[j];
    assert ids[i] in ids && ids[i] !in front;
    UpdatesApply(m, log, front, now);
  }
}
