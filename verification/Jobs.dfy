/** Background jobs of a turn: worker threads, cancellation, and delivery of terminal
    results at the agent's safe points. One step is one lock region, or the moment an
    executor thread takes a pending future. */
module Jobs {
  import opened Common
  import opened Messages

  datatype Status = Submitted | Running | Completed | Failed | Cancelled {
    predicate Terminal() { Completed? || Failed? || Cancelled? }
  }

  /** The future and the worker thread behind it: waiting in the executor, taken but
      not yet inside `_run`'s first lock region, running the job's body, done, or
      cancelled before it was taken. */
  datatype Future = Pending | Taken | Body | Done | Dropped

  datatype Job = Job(turnId: Id, status: Status, token: bool, future: Future)

  datatype Update = Update(jobId: Id, turnId: Id, status: Status)

  /** `jobs` holds every job object; `live` are the keys of the manager's dictionary in
      insertion order; `journal` are the terminal job events of the session. */
  datatype Manager = Manager(jobs: map<Id, Job>, live: seq<Id>, updates: seq<Update>, journal: seq<Update>)

  function Submit(m: Manager, id: Id, turnId: Id): (r: Manager)
    requires id !in m.jobs
  {
    Manager(m.jobs[id := Job(turnId, Submitted, false, Pending)], m.live + [id],
            m.updates + [Update(id, turnId, Submitted)], m.journal)
  }

  function Finish(m: Manager, id: Id, status: Status): (r: Manager)
    requires id in m.jobs
  {
    var update := Update(id, m.jobs[id].turnId, status);
    Manager(m.jobs[id := m.jobs[id].(status := status)], m.live, m.updates + [update], m.journal + [update])
  }

  function Take(m: Manager, id: Id): (r: Manager)
    requires id in m.jobs
  {
    if m.jobs[id].future == Pending then m.(jobs := m.jobs[id := m.jobs[id].(future := Taken)]) else m
  }

  /** First lock region of the worker. */
  function Enter(m: Manager, id: Id): (r: Manager)
    requires id in m.jobs
  {
    var job := m.jobs[id];
    if job.future != Taken then m
    else if job.token then Finish(m.(jobs := m.jobs[id := job.(future := Done)]), id, Cancelled)
    else m.(jobs := m.jobs[id := job.(future := Body, status := Running)],
            updates := m.updates + [Update(id, job.turnId, Running)])
  }

  datatype Exit = Returned | ReturnedUnusable | Raised | RaisedCancelled

  /** Last lock region of the worker, by how the body ended. */
  function Leave(m: Manager, id: Id, exit: Exit): (r: Manager)
    requires id in m.jobs
  {
    var job := m.jobs[id];
    if job.future != Body then m
    else
      var status := match exit
        case Returned => Completed
        case ReturnedUnusable => Failed
        case Raised => if job.token then Cancelled else Failed
        case RaisedCancelled => Cancelled;
      Finish(m.(jobs := m.jobs[id := job.(future := Done)]), id, status)
  }

  function CancelLocked(m: Manager, id: Id): (r: Manager)
    requires id in m.jobs
  {
    var job := m.jobs[id];
    if job.status.Terminal() then m
    else if job.future == Pending then
      Finish(m.(jobs := m.jobs[id := job.(token := true, future := Dropped)]), id, Cancelled)
    else m.(jobs := m.jobs[id := job.(token := true)])
  }

  function CancelAll(m: Manager, ids: seq<Id>): (r: Manager)
    requires forall i :: 0 <= i < |ids| ==> ids[i] in m.jobs
    decreases |ids|
  {
    if ids == [] then m
    else
      var next := CancelLocked(m, ids[0]);
      assert forall i :: 0 <= i < |ids[1..]| ==> ids[1..][i] in next.jobs;
      CancelAll(next, ids[1..])
  }

  function OfTurn(m: Manager, turnId: Id): (ids: seq<Id>)
    ensures forall i :: 0 <= i < |ids| ==> ids[i] in m.jobs && m.jobs[ids[i]].turnId == turnId && ids[i] in m.live
  {
    Filter(m.live, id => id in m.jobs && m.jobs[id].turnId == turnId)
  }

  function CancelTurn(m: Manager, turnId: Id): (r: Manager) {
    CancelAll(m, OfTurn(m, turnId))
  }

  predicate TerminalOf(u: Update, turnId: Id) {
    u.turnId == turnId && u.status.Terminal()
  }

  predicate Mentioned(updates: seq<Update>, id: Id) {
    exists i :: 0 <= i < |updates| && updates[i].jobId == id
  }

  function Terminals(updates: seq<Update>, turnId: Id): (r: seq<Update>)
    ensures forall i :: 0 <= i < |r| ==> r[i] in updates && TerminalOf(r[i], turnId)
  {
    Filter(updates, u => TerminalOf(u, turnId))
  }

  /** Removes the terminal updates of the turn, every other update of those jobs, and
      the jobs themselves. */
  function DrainTerminal(m: Manager, turnId: Id): (r: Manager) {
    var selected := Terminals(m.updates, turnId);
    m.(live := Filter(m.live, id => !Mentioned(selected, id)),
       updates := Filter(m.updates, (u: Update) => !Mentioned(selected, u.jobId)))
  }

  /** Removes every update of the turn, and the jobs whose terminal update was there. */
  function DrainUpdates(m: Manager, turnId: Id): (r: Manager) {
    var selected := Terminals(m.updates, turnId);
    m.(live := Filter(m.live, id => !Mentioned(selected, id)),
       updates := Filter(m.updates, (u: Update) => u.turnId != turnId))
  }

  ghost predicate NoneUnfinished(m: Manager, turnId: Id) {
    forall id :: id in m.live && id in m.jobs && m.jobs[id].turnId == turnId ==> m.jobs[id].status.Terminal()
  }

  // ---------------------------------------------------------------- system

  /** The agent of `turnId`: at work (it may submit jobs), just checked that nothing is
      pending, or finished. Deliveries and discards are recorded. */
  datatype Phase = Busy | Checked | Finished

  datatype System = System(m: Manager, turnId: Id, phase: Phase, delivered: seq<Update>, discarded: seq<Update>)

  datatype Action =
    | SubmitJob(id: Id, turnId: Id)
    | TakeFuture(id: Id)
    | EnterRun(id: Id)
    | LeaveRun(id: Id, exit: Exit)
    | CancelJob(id: Id)
    | CancelTurnJobs(turnId: Id)
    | DeliverTerminal(turnId: Id)
    | Discard(turnId: Id)
    | CheckJobs
    | Resume
    | FinishTurn

  function Step(s: System, action: Action): (s': System) {
    match action
    case SubmitJob(id, turnId) =>
      if id in s.m.jobs || (turnId == s.turnId && s.phase != Busy) then s else s.(m := Submit(s.m, id, turnId))
    case TakeFuture(id) => if id in s.m.jobs then s.(m := Take(s.m, id)) else s
    case EnterRun(id) => if id in s.m.jobs then s.(m := Enter(s.m, id)) else s
    case LeaveRun(id, exit) => if id in s.m.jobs then s.(m := Leave(s.m, id, exit)) else s
    case CancelJob(id) =>
      if id in s.m.jobs && !s.m.jobs[id].status.Terminal() then s.(m := CancelLocked(s.m, id)) else s
    case CancelTurnJobs(turnId) => s.(m := CancelTurn(s.m, turnId))
    case DeliverTerminal(turnId) =>
      s.(m := DrainTerminal(s.m, turnId), delivered := s.delivered + Terminals(s.m.updates, turnId))
    case Discard(turnId) =>
      s.(m := DrainUpdates(s.m, turnId), discarded := s.discarded + Terminals(s.m.updates, turnId))
    case CheckJobs =>
      var s' := s.(m := DrainTerminal(s.m, s.turnId), delivered := s.delivered + Terminals(s.m.updates, s.turnId));
      if s.phase == Finished then s
      else
        var nothing := Terminals(s.m.updates, s.turnId) == [] && NothingPending(s'.m, s.turnId);
        s'.(phase := if nothing then Checked else Busy)
    case Resume => if s.phase == Checked then s.(phase := Busy) else s
    case FinishTurn => if s.phase == Checked then s.(phase := Finished) else s
  }

  predicate NothingPending(m: Manager, turnId: Id) {
    forall i :: 0 <= i < |m.live| && m.live[i] in m.jobs && m.jobs[m.live[i]].turnId == turnId ==>
      m.jobs[m.live[i]].status.Terminal()
  }

  /** Terminal updates for one job. */
  function Ends(updates: seq<Update>, id: Id): (n: nat) {
    if updates == [] then 0
    else (if updates[0].jobId == id && updates[0].status.Terminal() then 1 else 0) + Ends(updates[1..], id)
  }

  predicate FutureFits(job: Job) {
    match job.future
    case Pending => job.status == Submitted && !job.token
    case Taken => job.status == Submitted
    case Body => job.status == Running
    case Done => job.status.Terminal()
    case Dropped => job.status == Cancelled
  }

  /** Everything known about one job. */
  ghost predicate JobInv(s: System, id: Id)
    requires id in s.m.jobs
  {
    var job := s.m.jobs[id];
    var ends := if job.status.Terminal() then 1 else 0;
    && FutureFits(job)
    && Ends(s.m.journal, id) == ends
    && Ends(s.m.updates, id) + Ends(s.delivered, id) + Ends(s.discarded, id) == ends
    && (!job.status.Terminal() ==> id in s.m.live)
    && (id in s.m.live && job.status.Terminal() ==> Ends(s.m.updates, id) == 1)
    && (id !in s.m.live ==> !Mentioned(s.m.updates, id))
  }

  ghost predicate UpdatesFit(updates: seq<Update>, jobs: map<Id, Job>) {
    forall i :: 0 <= i < |updates| ==> updates[i].jobId in jobs && jobs[updates[i].jobId].turnId == updates[i].turnId
  }

  /** No unfinished job and no undelivered result; in fact no update of any kind. */
  ghost predicate Quiet(m: Manager, turnId: Id) {
    && NoneUnfinished(m, turnId)
    && forall i :: 0 <= i < |m.updates| ==> m.updates[i].turnId != turnId
  }

  ghost predicate Inv(s: System) {
    && (forall id :: id in s.m.jobs ==> JobInv(s, id))
    && (forall i :: 0 <= i < |s.m.live| ==> s.m.live[i] in s.m.jobs)
    && UpdatesFit(s.m.updates, s.m.jobs) && UpdatesFit(s.m.journal, s.m.jobs)
    && UpdatesFit(s.delivered, s.m.jobs) && UpdatesFit(s.discarded, s.m.jobs)
    && (s.phase != Busy ==> Quiet(s.m, s.turnId))
  }

  function Init(turnId: Id): (s: System) {
    System(Manager(map[], [], [], []), turnId, Busy, [], [])
  }

  // ---------------------------------------------------------------- counting terminal updates

  lemma {:induction false} EndsConcat(a: seq<Update>, b: seq<Update>, id: Id)
    ensures Ends(a + b, id) == Ends(a, id) + Ends(b, id)
  {
    if a == [] {
      assert a + b == b;
    } else {
      assert (a + b)[1..] == a[1..] + b;
      EndsConcat(a[1..], b, id);
    }
  }

  lemma EndsOne(u: Update, id: Id)
    ensures Ends([u], id) == if u.jobId == id && u.status.Terminal() then 1 else 0
  {
    assert [u][1..] == [];
  }

  lemma {:induction false} EndsFilter(updates: seq<Update>, p: Update -> bool, id: Id, keep: bool)
    requires forall i :: 0 <= i < |updates| && updates[i].jobId == id && updates[i].status.Terminal() ==>
             p(updates[i]) == keep
    ensures Ends(Filter(updates, p), id) == if keep then Ends(updates, id) else 0
  {
    if updates != [] {
      EndsFilter(updates[1..], p, id, keep);
      var rest := Filter(updates[1..], p);
      assert Filter(updates, p) == if p(updates[0]) then [updates[0]] + rest else rest;
      assert ([updates[0]] + rest)[1..] == rest;
    }
  }

  lemma {:induction false} EndsWitness(updates: seq<Update>, id: Id) returns (i: nat)
    requires Ends(updates, id) > 0
    ensures i < |updates| && updates[i].jobId == id && updates[i].status.Terminal()
  {
    if updates[0].jobId == id && updates[0].status.Terminal() {
      i := 0;
    } else {
      i := EndsWitness(updates[1..], id);
      i := i + 1;
    }
  }

  lemma {:induction false} EndsPositive(updates: seq<Update>, i: nat)
    requires i < |updates| && updates[i].status.Terminal()
    ensures Ends(updates, updates[i].jobId) > 0
  {
    if i > 0 { EndsPositive(updates[1..], i - 1); }
  }

  // ---------------------------------------------------------------- steps on one job

  /** `m'` differs from `m` in one job only, and reports at most one update for it. */
  ghost predicate Local(m: Manager, m': Manager, id: Id, news: seq<Update>, ends: seq<Update>) {
    && id in m.jobs
    && id in m'.jobs && m'.jobs == m.jobs[id := m'.jobs[id]]
    && m'.jobs[id].turnId == m.jobs[id].turnId
    && m'.live == m.live
    && m'.updates == m.updates + news
    && m'.journal == m.journal + ends
    && (forall i :: 0 <= i < |news| ==> news[i].jobId == id && news[i].turnId == m.jobs[id].turnId)
    && (forall i :: 0 <= i < |ends| ==> ends[i].jobId == id && ends[i].turnId == m.jobs[id].turnId)
  }

  lemma OthersKeep(s: System, s': System, id: Id, news: seq<Update>, ends: seq<Update>, x: Id)
    requires Local(s.m, s'.m, id, news, ends) && s'.delivered == s.delivered && s'.discarded == s.discarded
    requires x in s.m.jobs && x != id && JobInv(s, x)
    ensures JobInv(s', x)
  {
    EndsConcat(s.m.updates, news, x);
    EndsConcat(s.m.journal, ends, x);
    NoEnds(news, id, x);
    NoEnds(ends, id, x);
    assert Mentioned(s'.m.updates, x) ==> Mentioned(s.m.updates, x) by {
      if i :| 0 <= i < |s'.m.updates| && s'.m.updates[i].jobId == x {
        assert i < |s.m.updates|;
        assert s.m.updates[i].jobId == x;
      }
    }
  }

  lemma {:induction false} NoEnds(updates: seq<Update>, id: Id, x: Id)
    requires id != x && forall i :: 0 <= i < |updates| ==> updates[i].jobId == id
    ensures Ends(updates, x) == 0
  {
    if updates != [] { NoEnds(updates[1..], id, x); }
  }

  /** A step on an unfinished job keeps the invariant if it keeps it for that job. */
  lemma LocalKeepsInv(s: System, m': Manager, id: Id, news: seq<Update>, ends: seq<Update>)
    requires Inv(s) && Local(s.m, m', id, news, ends)
    requires !s.m.jobs[id].status.Terminal()
    requires JobInv(s.(m := m'), id)
    ensures Inv(s.(m := m'))
  {
    assert id in s.m.live by { assert JobInv(s, id); }
    AllJobsKeep(s, s.(m := m'), id, news, ends);
    hide JobInv;
    FitLocal(s.m.jobs, m'.jobs, id, s.m.updates, news);
    FitLocal(s.m.jobs, m'.jobs, id, s.m.journal, ends);
    FitLocal(s.m.jobs, m'.jobs, id, s.delivered, []);
    FitLocal(s.m.jobs, m'.jobs, id, s.discarded, []);
    hide UpdatesFit;
    assert s.delivered + [] == s.delivered && s.discarded + [] == s.discarded;
    if s.phase != Busy { QuietLocal(s.m, m', id, news, ends, s.turnId); }
  }

  lemma AllJobsKeep(s: System, s': System, id: Id, news: seq<Update>, ends: seq<Update>)
    requires forall x :: x in s.m.jobs ==> JobInv(s, x)
    requires Local(s.m, s'.m, id, news, ends) && s'.delivered == s.delivered && s'.discarded == s.discarded
    requires JobInv(s', id)
    ensures forall x :: x in s'.m.jobs ==> JobInv(s', x)
  {
    hide JobInv;
    forall x | x in s'.m.jobs ensures JobInv(s', x) {
      if x != id { OthersKeep(s, s', id, news, ends, x); }
    }
  }

  lemma FitLocal(jobs: map<Id, Job>, jobs': map<Id, Job>, id: Id, updates: seq<Update>, news: seq<Update>)
    requires UpdatesFit(updates, jobs) && id in jobs && id in jobs' && jobs' == jobs[id := jobs'[id]]
    requires jobs'[id].turnId == jobs[id].turnId
    requires forall i :: 0 <= i < |news| ==> news[i].jobId == id && news[i].turnId == jobs[id].turnId
    ensures UpdatesFit(updates + news, jobs')
  {
  }

  lemma QuietLocal(m: Manager, m': Manager, id: Id, news: seq<Update>, ends: seq<Update>, turnId: Id)
    requires Local(m, m', id, news, ends) && Quiet(m, turnId)
    requires id in m.live && !m.jobs[id].status.Terminal()
    ensures Quiet(m', turnId)
  {
    assert m.jobs[id].turnId != turnId;
  }

  lemma FinishKeepsInv(s: System, m: Manager, id: Id, status: Status)
    requires Inv(s) && id in s.m.jobs && !s.m.jobs[id].status.Terminal() && status.Terminal()
    requires id in m.jobs && m == s.m.(jobs := s.m.jobs[id := m.jobs[id]])
    requires m.jobs[id].turnId == s.m.jobs[id].turnId
    requires m.jobs[id].future == Done || (m.jobs[id].future == Dropped && status == Cancelled)
    ensures Inv(s.(m := Finish(m, id, status)))
  {
    var u := Update(id, m.jobs[id].turnId, status);
    var m' := Finish(m, id, status);
    assert Local(s.m, m', id, [u], [u]);
    assert JobInv(s, id);
    EndsConcat(s.m.updates, [u], id);
    EndsConcat(s.m.journal, [u], id);
    EndsOne(u, id);
    hide Ends;
    LocalKeepsInv(s, m', id, [u], [u]);
  }

  lemma TakeKeepsInv(s: System, id: Id)
    requires Inv(s) && id in s.m.jobs
    ensures Inv(s.(m := Take(s.m, id)))
  {
    assert JobInv(s, id);
    var m' := Take(s.m, id);
    if s.m.jobs[id].future == Pending {
      assert Local(s.m, m', id, [], []);
      LocalKeepsInv(s, m', id, [], []);
    } else {
      assert s.(m := m') == s;
    }
  }

  lemma EnterKeepsInv(s: System, id: Id)
    requires Inv(s) && id in s.m.jobs
    ensures Inv(s.(m := Enter(s.m, id)))
  {
    assert JobInv(s, id);
    var job := s.m.jobs[id];
    if job.future != Taken {
      assert s.(m := s.m) == s;
    } else if job.token {
      FinishKeepsInv(s, s.m.(jobs := s.m.jobs[id := job.(future := Done)]), id, Cancelled);
    } else {
      var u, m' := Update(id, job.turnId, Running), Enter(s.m, id);
      assert Local(s.m, m', id, [u], []);
      EndsConcat(s.m.updates, [u], id);
      EndsOne(u, id);
      LocalKeepsInv(s, m', id, [u], []);
    }
  }

  lemma LeaveKeepsInv(s: System, id: Id, exit: Exit)
    requires Inv(s) && id in s.m.jobs
    ensures Inv(s.(m := Leave(s.m, id, exit)))
  {
    assert JobInv(s, id);
    var job := s.m.jobs[id];
    if job.future == Body {
      var status := match exit
        case Returned => Completed
        case ReturnedUnusable => Failed
        case Raised => if job.token then Cancelled else Failed
        case RaisedCancelled => Cancelled;
      FinishKeepsInv(s, s.m.(jobs := s.m.jobs[id := job.(future := Done)]), id, status);
    } else {
      assert s.(m := s.m) == s;
    }
  }

  lemma CancelKeepsInv(s: System, id: Id)
    requires Inv(s) && id in s.m.jobs
    ensures Inv(s.(m := CancelLocked(s.m, id)))
  {
    assert JobInv(s, id);
    var job := s.m.jobs[id];
    if job.status.Terminal() {
      assert s.(m := s.m) == s;
    } else if job.future == Pending {
      FinishKeepsInv(s, s.m.(jobs := s.m.jobs[id := job.(token := true, future := Dropped)]), id, Cancelled);
    } else {
      var m' := CancelLocked(s.m, id);
      assert Local(s.m, m', id, [], []);
      LocalKeepsInv(s, m', id, [], []);
    }
  }

  lemma {:induction false} CancelAllKeepsInv(s: System, ids: seq<Id>)
    requires Inv(s) && forall i :: 0 <= i < |ids| ==> ids[i] in s.m.jobs
    ensures Inv(s.(m := CancelAll(s.m, ids)))
    decreases |ids|
  {
    if ids == [] {
      assert s.(m := s.m) == s;
    } else {
      CancelKeepsInv(s, ids[0]);
      hide Inv;
      CancelAllKeepsInv(s.(m := CancelLocked(s.m, ids[0])), ids[1..]);
    }
  }

  lemma SubmitKeepsInv(s: System, id: Id, turnId: Id)
    requires Inv(s) && id !in s.m.jobs && (turnId == s.turnId ==> s.phase == Busy)
    ensures Inv(s.(m := Submit(s.m, id, turnId)))
  {
    hide JobInv, Ends, Mentioned, UpdatesFit;
    var s' := s.(m := Submit(s.m, id, turnId));
    NoEndsForNew(s, id);
    forall x | x in s'.m.jobs ensures JobInv(s', x) {
      SubmitKeepsJob(s, id, turnId, x);
    }
    SubmitFits(s.m.jobs, s'.m.jobs, id, turnId, s.m.updates);
    SubmitFits(s.m.jobs, s'.m.jobs, id, turnId, s.m.journal);
    SubmitFits(s.m.jobs, s'.m.jobs, id, turnId, s.delivered);
    SubmitFits(s.m.jobs, s'.m.jobs, id, turnId, s.discarded);
  }

  lemma SubmitFits(jobs: map<Id, Job>, jobs': map<Id, Job>, id: Id, turnId: Id, updates: seq<Update>)
    requires UpdatesFit(updates, jobs) && id !in jobs && jobs' == jobs[id := Job(turnId, Submitted, false, Pending)]
    ensures UpdatesFit(updates, jobs') && UpdatesFit(updates + [Update(id, turnId, Submitted)], jobs')
  {
  }

  lemma SubmitKeepsJob(s: System, id: Id, turnId: Id, x: Id)
    requires id !in s.m.jobs && (x == id || (x in s.m.jobs && JobInv(s, x)))
    requires Ends(s.m.updates, id) == Ends(s.m.journal, id) == Ends(s.delivered, id) == Ends(s.discarded, id) == 0
    ensures JobInv(s.(m := Submit(s.m, id, turnId)), x)
  {
    var u := Update(id, turnId, Submitted);
    EndsConcat(s.m.updates, [u], x);
    EndsOne(u, x);
    if x != id { MentionedBefore(s.m.updates, u, x); }
    hide Ends, Mentioned;
  }

  lemma MentionedBefore(updates: seq<Update>, u: Update, x: Id)
    requires u.jobId != x
    ensures Mentioned(updates + [u], x) ==> Mentioned(updates, x)
  {
    if i :| 0 <= i < |updates + [u]| && (updates + [u])[i].jobId == x {
      assert i < |updates| && updates[i].jobId == x;
    }
  }

  lemma NoEndsForNew(s: System, id: Id)
    requires Inv(s) && id !in s.m.jobs
    ensures Ends(s.m.updates, id) == Ends(s.m.journal, id) == Ends(s.delivered, id) == Ends(s.discarded, id) == 0
  {
    NoEndsOutside(s.m.updates, s.m.jobs, id);
    NoEndsOutside(s.m.journal, s.m.jobs, id);
    NoEndsOutside(s.delivered, s.m.jobs, id);
    NoEndsOutside(s.discarded, s.m.jobs, id);
  }

  lemma {:induction false} NoEndsOutside(updates: seq<Update>, jobs: map<Id, Job>, id: Id)
    requires UpdatesFit(updates, jobs) && id !in jobs
    ensures Ends(updates, id) == 0
  {
    if updates != [] {
      assert forall i :: 0 <= i < |updates[1..]| ==> updates[1..][i] == updates[i + 1];
      NoEndsOutside(updates[1..], jobs, id);
    }
  }

  // ---------------------------------------------------------------- drains

  /** What the terminal updates of a turn say about one of the jobs. */
  lemma SelectedJob(s: System, turnId: Id, id: Id)
    requires Inv(s) && id in s.m.jobs
    ensures Ends(Terminals(s.m.updates, turnId), id) ==
            if s.m.jobs[id].turnId == turnId then Ends(s.m.updates, id) else 0
    ensures Mentioned(Terminals(s.m.updates, turnId), id) <==>
              s.m.jobs[id].turnId == turnId && Ends(s.m.updates, id) > 0
  {
    var selected := Terminals(s.m.updates, turnId);
    EndsFilter(s.m.updates, u => TerminalOf(u, turnId), id, s.m.jobs[id].turnId == turnId);
    if Mentioned(selected, id) {
      var i :| 0 <= i < |selected| && selected[i].jobId == id;
      EndsPositive(selected, i);
    }
    if Ends(selected, id) > 0 {
      var i := EndsWitness(selected, id);
    }
  }

  lemma LiveAfter(m: Manager, selected: seq<Update>, id: Id)
    ensures id in Filter(m.live, x => !Mentioned(selected, x)) <==> id in m.live && !Mentioned(selected, id)
  {
    FilterHas(m.live, x => !Mentioned(selected, x), id);
  }

  lemma KeptMention(updates: seq<Update>, p: Update -> bool, id: Id)
    requires Mentioned(Filter(updates, p), id)
    ensures exists i :: 0 <= i < |updates| && updates[i].jobId == id && p(updates[i])
  {
    var kept := Filter(updates, p);
    hide Filter;
    var k :| 0 <= k < |kept| && kept[k].jobId == id;
    var i :| 0 <= i < |updates| && updates[i] == kept[k];
  }

  lemma UnselectedMention(m: Manager, turnId: Id, id: Id)
    ensures var selected := Terminals(m.updates, turnId);
            && (Mentioned(DrainTerminal(m, turnId).updates, id) ==>
                Mentioned(m.updates, id) && !Mentioned(selected, id))
            && Ends(DrainTerminal(m, turnId).updates, id) == if Mentioned(selected, id) then 0 else Ends(m.updates, id)
  {
    var selected := Terminals(m.updates, turnId);
    var p := (u: Update) => !Mentioned(selected, u.jobId);
    if Mentioned(Filter(m.updates, p), id) { KeptMention(m.updates, p, id); }
    EndsFilter(m.updates, p, id, !Mentioned(selected, id));
  }

  lemma DrainTerminalJob(s: System, turnId: Id, id: Id)
    requires Inv(s) && id in s.m.jobs
    ensures JobInv(s.(m := DrainTerminal(s.m, turnId), delivered := s.delivered + Terminals(s.m.updates, turnId)), id)
  {
    assert JobInv(s, id);
    var selected := Terminals(s.m.updates, turnId);
    SelectedJob(s, turnId, id);
    UnselectedMention(s.m, turnId, id);
    hide Inv, Mentioned, Ends, Terminals;
    EndsConcat(s.delivered, selected, id);
    LiveAfter(s.m, selected, id);
    hide Filter;
  }

  lemma OtherTurnsMention(m: Manager, turnId: Id, id: Id)
    requires UpdatesFit(m.updates, m.jobs) && id in m.jobs
    ensures Mentioned(DrainUpdates(m, turnId).updates, id) ==> Mentioned(m.updates, id) && m.jobs[id].turnId != turnId
    ensures Ends(DrainUpdates(m, turnId).updates, id) == if m.jobs[id].turnId == turnId then 0 else Ends(m.updates, id)
  {
    var p := (u: Update) => u.turnId != turnId;
    if Mentioned(Filter(m.updates, p), id) { KeptMention(m.updates, p, id); }
    EndsFilter(m.updates, p, id, m.jobs[id].turnId != turnId);
  }

  lemma DrainUpdatesJob(s: System, turnId: Id, id: Id)
    requires Inv(s) && id in s.m.jobs
    ensures JobInv(s.(m := DrainUpdates(s.m, turnId), discarded := s.discarded + Terminals(s.m.updates, turnId)), id)
  {
    assert JobInv(s, id);
    var selected := Terminals(s.m.updates, turnId);
    SelectedJob(s, turnId, id);
    OtherTurnsMention(s.m, turnId, id);
    hide Inv, Mentioned, Ends, Terminals;
    EndsConcat(s.discarded, selected, id);
    LiveAfter(s.m, selected, id);
    hide Filter;
  }

  lemma FitFilter(updates: seq<Update>, p: Update -> bool, jobs: map<Id, Job>)
    requires UpdatesFit(updates, jobs)
    ensures UpdatesFit(Filter(updates, p), jobs)
  {
  }

  lemma FitConcat(a: seq<Update>, b: seq<Update>, jobs: map<Id, Job>)
    requires UpdatesFit(a, jobs) && UpdatesFit(b, jobs)
    ensures UpdatesFit(a + b, jobs)
  {
  }

  lemma QuietShrinks(m: Manager, m': Manager, turnId: Id)
    requires Quiet(m, turnId) && m'.jobs == m.jobs
    requires forall i :: 0 <= i < |m'.live| ==> m'.live[i] in m.live
    requires forall i :: 0 <= i < |m'.updates| ==> m'.updates[i] in m.updates
    ensures Quiet(m', turnId)
  {
  }

  lemma DrainTerminalKeepsInv(s: System, turnId: Id)
    requires Inv(s)
    ensures Inv(s.(m := DrainTerminal(s.m, turnId), delivered := s.delivered + Terminals(s.m.updates, turnId)))
  {
    var selected, m' := Terminals(s.m.updates, turnId), DrainTerminal(s.m, turnId);
    forall id | id in m'.jobs ensures JobInv(s.(m := m', delivered := s.delivered + selected), id) {
      DrainTerminalJob(s, turnId, id);
    }
    hide JobInv;
    FitFilter(s.m.updates, u => TerminalOf(u, turnId), s.m.jobs);
    FitFilter(s.m.updates, (u: Update) => !Mentioned(selected, u.jobId), s.m.jobs);
    FitConcat(s.delivered, selected, s.m.jobs);
    if s.phase != Busy { QuietShrinks(s.m, m', s.turnId); }
  }

  lemma DrainUpdatesKeepsInv(s: System, turnId: Id)
    requires Inv(s)
    ensures Inv(s.(m := DrainUpdates(s.m, turnId), discarded := s.discarded + Terminals(s.m.updates, turnId)))
  {
    var selected, m' := Terminals(s.m.updates, turnId), DrainUpdates(s.m, turnId);
    forall id | id in m'.jobs ensures JobInv(s.(m := m', discarded := s.discarded + selected), id) {
      DrainUpdatesJob(s, turnId, id);
    }
    hide JobInv;
    FitFilter(s.m.updates, u => TerminalOf(u, turnId), s.m.jobs);
    FitFilter(s.m.updates, (u: Update) => u.turnId != turnId, s.m.jobs);
    FitConcat(s.discarded, selected, s.m.jobs);
    if s.phase != Busy { QuietShrinks(s.m, m', s.turnId); }
  }

  /** A drain that finds no terminal update and nothing pending proves the turn quiet:
      every remaining update would belong to a live job, and there is none. */
  lemma EmptyDrainIsQuiet(s: System, turnId: Id)
    requires Inv(s) && NothingPending(s.m, turnId) && Terminals(s.m.updates, turnId) == []
    ensures Quiet(s.m, turnId)
  {
    forall i | 0 <= i < |s.m.updates| ensures s.m.updates[i].turnId != turnId {
      var id := s.m.updates[i].jobId;
      assert JobInv(s, id) && Mentioned(s.m.updates, id);
      SelectedJob(s, turnId, id);
      assert id in s.m.live;
    }
  }

  lemma StepKeepsInv(s: System, action: Action)
    requires Inv(s)
    ensures Inv(Step(s, action))
  {
    hide Inv, Step;
    match action
    case SubmitJob(id, turnId) => SubmitStep(s, id, turnId);
    case TakeFuture(id) => TakeStep(s, id);
    case EnterRun(id) => EnterStep(s, id);
    case LeaveRun(id, exit) => LeaveStep(s, id, exit);
    case CancelJob(id) => CancelStep(s, id);
    case CancelTurnJobs(turnId) => CancelTurnStep(s, turnId);
    case DeliverTerminal(turnId) => DeliverStep(s, turnId);
    case Discard(turnId) => DiscardStep(s, turnId);
    case CheckJobs => CheckKeepsInv(s);
    case Resume => PhaseSteps(s);
    case FinishTurn => PhaseSteps(s);
  }

  lemma SubmitStep(s: System, id: Id, turnId: Id)
    requires Inv(s)
    ensures Inv(Step(s, SubmitJob(id, turnId)))
  {
    hide Inv, Submit, Take, Enter, Leave, CancelLocked, CancelAll, DrainTerminal, DrainUpdates, Terminals;
    if id !in s.m.jobs && !(turnId == s.turnId && s.phase != Busy) { SubmitKeepsInv(s, id, turnId); }
  }

  lemma TakeStep(s: System, id: Id)
    requires Inv(s)
    ensures Inv(Step(s, TakeFuture(id)))
  {
    hide Inv, Submit, Take, Enter, Leave, CancelLocked, CancelAll, DrainTerminal, DrainUpdates, Terminals;
    if id in s.m.jobs { TakeKeepsInv(s, id); }
  }

  lemma EnterStep(s: System, id: Id)
    requires Inv(s)
    ensures Inv(Step(s, EnterRun(id)))
  {
    hide Inv, Submit, Take, Enter, Leave, CancelLocked, CancelAll, DrainTerminal, DrainUpdates, Terminals;
    if id in s.m.jobs { EnterKeepsInv(s, id); }
  }

  lemma LeaveStep(s: System, id: Id, exit: Exit)
    requires Inv(s)
    ensures Inv(Step(s, LeaveRun(id, exit)))
  {
    hide Inv, Submit, Take, Enter, Leave, CancelLocked, CancelAll, DrainTerminal, DrainUpdates, Terminals;
    if id in s.m.jobs { LeaveKeepsInv(s, id, exit); }
  }

  lemma CancelStep(s: System, id: Id)
    requires Inv(s)
    ensures Inv(Step(s, CancelJob(id)))
  {
    hide Inv, Submit, Take, Enter, Leave, CancelLocked, CancelAll, DrainTerminal, DrainUpdates, Terminals;
    if id in s.m.jobs { CancelKeepsInv(s, id); }
  }

  lemma CancelTurnStep(s: System, turnId: Id)
    requires Inv(s)
    ensures Inv(Step(s, CancelTurnJobs(turnId)))
  {
    hide Inv, Submit, Take, Enter, Leave, CancelLocked, CancelAll, DrainTerminal, DrainUpdates, Terminals;
    CancelAllKeepsInv(s, OfTurn(s.m, turnId));
  }

  lemma DeliverStep(s: System, turnId: Id)
    requires Inv(s)
    ensures Inv(Step(s, DeliverTerminal(turnId)))
  {
    hide Inv, Submit, Take, Enter, Leave, CancelLocked, CancelAll, DrainTerminal, DrainUpdates, Terminals;
    DrainTerminalKeepsInv(s, turnId);
  }

  lemma DiscardStep(s: System, turnId: Id)
    requires Inv(s)
    ensures Inv(Step(s, Discard(turnId)))
  {
    hide Inv, Submit, Take, Enter, Leave, CancelLocked, CancelAll, DrainTerminal, DrainUpdates, Terminals;
    DrainUpdatesKeepsInv(s, turnId);
  }

  lemma PhaseSteps(s: System)
    requires Inv(s)
    ensures Inv(Step(s, Resume)) && Inv(Step(s, FinishTurn))
  {
    PhaseKeepsInv(s, Busy);
    if s.phase == Checked { PhaseKeepsInv(s, Finished); }
    hide Inv;
  }

  lemma PhaseKeepsInv(s: System, phase: Phase)
    requires Inv(s) && (phase != Busy ==> Quiet(s.m, s.turnId))
    ensures Inv(s.(phase := phase))
  {
    hide Ends, Mentioned, FutureFits, Quiet, UpdatesFit;
    var s' := s.(phase := phase);
    forall id | id in s'.m.jobs ensures JobInv(s', id) {
      assert JobInv(s, id);
    }
  }

  lemma CheckKeepsInv(s: System)
    requires Inv(s)
    ensures Inv(Step(s, CheckJobs))
  {
    if s.phase != Finished {
      var selected := Terminals(s.m.updates, s.turnId);
      var s' := s.(m := DrainTerminal(s.m, s.turnId), delivered := s.delivered + selected);
      DrainTerminalKeepsInv(s, s.turnId);
      if selected == [] && NothingPending(s'.m, s.turnId) {
        DrainNothing(s.m, s.turnId);
        EmptyDrainIsQuiet(s', s.turnId);
        PhaseKeepsInv(s', Checked);
      } else {
        PhaseKeepsInv(s', Busy);
      }
    }
  }

  lemma DrainNothing(m: Manager, turnId: Id)
    requires Terminals(m.updates, turnId) == []
    ensures DrainTerminal(m, turnId) == m
  {
    KeepEverything(m.live, id => !Mentioned([], id));
    KeepEverything(m.updates, (u: Update) => !Mentioned([], u.jobId));
  }

  lemma {:induction false} KeepEverything<T>(s: seq<T>, p: T -> bool)
    requires forall i :: 0 <= i < |s| ==> p(s[i])
    ensures Filter(s, p) == s
  {
    if s != [] { KeepEverything(s[1..], p); }
  }

  function Run(turnId: Id, actions: seq<Action>): (s: System)
    decreases |actions|
  {
    if actions == [] then Init(turnId) else Step(Run(turnId, actions[..|actions| - 1]), Last(actions))
  }

  lemma {:induction false} RunKeepsInv(turnId: Id, actions: seq<Action>)
    ensures Inv(Run(turnId, actions))
    decreases |actions|
  {
    if actions != [] {
      RunKeepsInv(turnId, actions[..|actions| - 1]);
      StepKeepsInv(Run(turnId, actions[..|actions| - 1]), Last(actions));
    }
  }

  // ---------------------------------------------------------------- what is told of a job

  /** Every terminal update tells how its job ended. */
  ghost predicate Truthful(updates: seq<Update>, jobs: map<Id, Job>) {
    forall i :: 0 <= i < |updates| && updates[i].status in {Completed, Failed, Cancelled} ==>
      updates[i].jobId in jobs && jobs[updates[i].jobId].status == updates[i].status
  }

  ghost predicate AllTruthful(s: System) {
    && Truthful(s.m.journal, s.m.jobs) && Truthful(s.m.updates, s.m.jobs)
    && Truthful(s.delivered, s.m.jobs) && Truthful(s.discarded, s.m.jobs)
  }

  /** An unfinished job has no terminal update, so whatever becomes of it belies none. */
  lemma ChangeStaysTruthful(updates: seq<Update>, jobs: map<Id, Job>, id: Id, job: Job)
    requires Truthful(updates, jobs) && (id in jobs ==> jobs[id] == job || jobs[id].status in {Submitted, Running})
    ensures Truthful(updates, jobs[id := job])
    ensures Truthful(updates + [Update(id, job.turnId, job.status)], jobs[id := job])
  {
  }

  lemma FilterStaysTruthful(updates: seq<Update>, p: Update -> bool, jobs: map<Id, Job>)
    requires Truthful(updates, jobs)
    ensures Truthful(Filter(updates, p), jobs)
  {
  }

  lemma TruthfulConcat(a: seq<Update>, b: seq<Update>, jobs: map<Id, Job>)
    requires Truthful(a, jobs) && Truthful(b, jobs)
    ensures Truthful(a + b, jobs)
  {
  }

  /** The manager changed the job `id` alone, and told of it in these lists or in none. */
  ghost predicate TellsOf(s: System, m': Manager, id: Id) {
    id in m'.jobs
    && m'.jobs == s.m.jobs[id := m'.jobs[id]]
    && (id in s.m.jobs ==> m'.jobs[id] == s.m.jobs[id] || s.m.jobs[id].status in {Submitted, Running})
    && (var u := Update(id, m'.jobs[id].turnId, m'.jobs[id].status);
        && (m'.journal == s.m.journal || m'.journal == s.m.journal + [u])
        && (m'.updates == s.m.updates || m'.updates == s.m.updates + [u]))
  }

  lemma TellingStaysTruthful(s: System, m': Manager, id: Id)
    requires AllTruthful(s) && TellsOf(s, m', id)
    ensures AllTruthful(s.(m := m'))
  {
    var job := m'.jobs[id];
    ChangeStaysTruthful(s.m.journal, s.m.jobs, id, job);
    ChangeStaysTruthful(s.m.updates, s.m.jobs, id, job);
    ChangeStaysTruthful(s.delivered, s.m.jobs, id, job);
    ChangeStaysTruthful(s.discarded, s.m.jobs, id, job);
    hide Truthful;
  }

  lemma {:induction false} CancelAllTruthful(s: System, ids: seq<Id>)
    requires AllTruthful(s) && forall i :: 0 <= i < |ids| ==> ids[i] in s.m.jobs
    ensures AllTruthful(s.(m := CancelAll(s.m, ids)))
    decreases |ids|
  {
    if ids != [] {
      CancelAllStep(s.m, ids);
      assert TellsOf(s, CancelLocked(s.m, ids[0]), ids[0]);
      TellingStaysTruthful(s, CancelLocked(s.m, ids[0]), ids[0]);
      hide AllTruthful, CancelLocked;
      CancelAllTruthful(s.(m := CancelLocked(s.m, ids[0])), ids[1..]);
    }
  }

  lemma DrainsTruthful(s: System, turnId: Id)
    requires AllTruthful(s)
    ensures AllTruthful(s.(m := DrainTerminal(s.m, turnId), delivered := s.delivered + Terminals(s.m.updates, turnId)))
    ensures AllTruthful(s.(m := DrainUpdates(s.m, turnId), discarded := s.discarded + Terminals(s.m.updates, turnId)))
  {
    var selected := Terminals(s.m.updates, turnId);
    FilterStaysTruthful(s.m.updates, u => TerminalOf(u, turnId), s.m.jobs);
    FilterStaysTruthful(s.m.updates, (u: Update) => !Mentioned(selected, u.jobId), s.m.jobs);
    FilterStaysTruthful(s.m.updates, (u: Update) => u.turnId != turnId, s.m.jobs);
    hide Truthful;
    TruthfulConcat(s.delivered, selected, s.m.jobs);
    TruthfulConcat(s.discarded, selected, s.m.jobs);
  }

  lemma WorkersTruthful(s: System, id: Id, exit: Exit)
    requires AllTruthful(s) && id in s.m.jobs && FutureFits(s.m.jobs[id])
    ensures AllTruthful(s.(m := Take(s.m, id))) && AllTruthful(s.(m := Enter(s.m, id)))
    ensures AllTruthful(s.(m := Leave(s.m, id, exit))) && AllTruthful(s.(m := CancelLocked(s.m, id)))
  {
    WorkersTell(s, id, exit);
    hide AllTruthful, TellsOf, Take, Enter, Leave, CancelLocked;
    TellingStaysTruthful(s, Take(s.m, id), id);
    TellingStaysTruthful(s, Enter(s.m, id), id);
    TellingStaysTruthful(s, Leave(s.m, id, exit), id);
    TellingStaysTruthful(s, CancelLocked(s.m, id), id);
  }

  lemma WorkersTell(s: System, id: Id, exit: Exit)
    requires id in s.m.jobs && FutureFits(s.m.jobs[id])
    ensures TellsOf(s, Take(s.m, id), id) && TellsOf(s, Enter(s.m, id), id)
    ensures TellsOf(s, Leave(s.m, id, exit), id) && TellsOf(s, CancelLocked(s.m, id), id)
  {
  }

  lemma StepTruthful(s: System, action: Action)
    requires Inv(s) && AllTruthful(s)
    ensures AllTruthful(Step(s, action))
  {
    FuturesFit(s);
    hide Inv, FutureFits, Take, Enter, Leave, CancelLocked, Submit, CancelTurn, Truthful, DrainTerminal, DrainUpdates,
         Terminals, NothingPending, AllTruthful;
    match action
    case SubmitJob(id, turnId) =>
      if id !in s.m.jobs { SubmitTruthful(s, id, turnId); }
    case TakeFuture(id) => if id in s.m.jobs { WorkersTruthful(s, id, Returned); }
    case EnterRun(id) => if id in s.m.jobs { WorkersTruthful(s, id, Returned); }
    case LeaveRun(id, exit) => if id in s.m.jobs { WorkersTruthful(s, id, exit); }
    case CancelJob(id) => if id in s.m.jobs { WorkersTruthful(s, id, Returned); }
    case CancelTurnJobs(turnId) => CancelAllTruthful(s, OfTurn(s.m, turnId));
    case DeliverTerminal(turnId) => DrainsTruthful(s, turnId);
    case Discard(turnId) => DrainsTruthful(s, turnId);
    case CheckJobs =>
      DrainsTruthful(s, s.turnId);
      var s' := s.(m := DrainTerminal(s.m, s.turnId), delivered := s.delivered + Terminals(s.m.updates, s.turnId));
      PhaseTruthful(s', Checked);
      PhaseTruthful(s', Busy);
    case Resume => PhaseTruthful(s, Busy);
    case FinishTurn => PhaseTruthful(s, Finished);
  }

  lemma FuturesFit(s: System)
    requires Inv(s)
    ensures forall id :: id in s.m.jobs ==> FutureFits(s.m.jobs[id])
  {
    hide FutureFits;
    forall id | id in s.m.jobs ensures FutureFits(s.m.jobs[id]) { assert JobInv(s, id); }
  }

  lemma SubmitTruthful(s: System, id: Id, turnId: Id)
    requires AllTruthful(s) && id !in s.m.jobs
    ensures AllTruthful(s.(m := Submit(s.m, id, turnId)))
  {
    hide AllTruthful;
    TellingStaysTruthful(s, Submit(s.m, id, turnId), id);
  }

  lemma PhaseTruthful(s: System, phase: Phase)
    requires AllTruthful(s)
    ensures AllTruthful(s.(phase := phase))
  {
    hide Truthful;
  }

  lemma {:induction false} RunTruthful(turnId: Id, actions: seq<Action>)
    ensures AllTruthful(Run(turnId, actions))
    decreases |actions|
  {
    if actions != [] {
      hide Inv, AllTruthful, Step;
      RunTruthful(turnId, actions[..|actions| - 1]);
      RunKeepsInv(turnId, actions[..|actions| - 1]);
      StepTruthful(Run(turnId, actions[..|actions| - 1]), Last(actions));
    }
  }

  /** A job ends with this status, and the journal and the agent are told the same, once. */
  ghost predicate EndsAs(s: System, s': System, id: Id, status: Status)
    requires id in s.m.jobs
  {
    var u := Update(id, s.m.jobs[id].turnId, status);
    && id in s'.m.jobs && s'.m.jobs[id].status == status && s'.m.jobs[id].turnId == s.m.jobs[id].turnId
    && s'.m.journal == s.m.journal + [u] && s'.m.updates == s.m.updates + [u]
  }

  /** How the body of a running job ends decides how the job ends. */
  lemma BodyEnds(s: System, id: Id, exit: Exit)
    requires Inv(s) && id in s.m.jobs && s.m.jobs[id].status == Running
    ensures var job := s.m.jobs[id];
            EndsAs(s, Step(s, LeaveRun(id, exit)), id,
                   if exit == Returned then Completed
                   else if exit == RaisedCancelled || (exit == Raised && job.token) then Cancelled
                   else Failed)
  {
    assert JobInv(s, id);
  }

  /** A worker runs a submitted job unless it was cancelled, which ends it. */
  lemma WorkerEnters(s: System, id: Id)
    requires Inv(s) && id in s.m.jobs && s.m.jobs[id].future == Taken
    ensures var job, s' := s.m.jobs[id], Step(s, EnterRun(id));
            if job.token then EndsAs(s, s', id, Cancelled)
            else
              && s'.m.jobs[id] == job.(status := Running, future := Body) && s'.m.journal == s.m.journal
              && s'.m.updates == s.m.updates + [Update(id, job.turnId, Running)]
  {
    assert JobInv(s, id);
  }

  /** Cancelling ends a job that no worker has taken, and asks any other that is not over. */
  lemma CancelDoes(s: System, id: Id)
    requires Inv(s) && id in s.m.jobs && s.m.jobs[id].status in {Submitted, Running}
    ensures var job, s' := s.m.jobs[id], Step(s, CancelJob(id));
            if job.future == Pending then EndsAs(s, s', id, Cancelled)
            else s'.m == s.m.(jobs := s.m.jobs[id := job.(token := true)])
  {
    assert JobInv(s, id);
  }

  lemma SubmitDoes(s: System, id: Id, turnId: Id)
    requires id !in s.m.jobs && (turnId == s.turnId ==> s.phase == Busy)
    ensures var s' := Step(s, SubmitJob(id, turnId));
            && s'.m.jobs == s.m.jobs[id := Job(turnId, Submitted, false, Pending)] && s'.m.live == s.m.live + [id]
            && s'.m.updates == s.m.updates + [Update(id, turnId, Submitted)] && s'.m.journal == s.m.journal
  {
  }

  /** What is handed over are exactly the terminal updates of the turn, in their order. */
  lemma {:induction false} TerminalsAre(updates: seq<Update>, turnId: Id, u: Update)
    ensures Terminals([], turnId) == []
    ensures Terminals(updates + [u], turnId) ==
            Terminals(updates, turnId)
            + if u.turnId == turnId && u.status in {Completed, Failed, Cancelled} then [u] else []
  {
    FilterConcat(updates, [u], (v: Update) => TerminalOf(v, turnId));
    assert [u][1..] == [];
    assert Terminals(updates + [u], turnId) == Terminals(updates, turnId) + Terminals([u], turnId);
    assert Terminals([u], turnId) == if TerminalOf(u, turnId) then [u] else [];
  }

  /** A check lets the turn finish exactly when none of its jobs is unfinished and none of
      its results waits; otherwise it hands the results over. */
  lemma CheckPasses(s: System)
    requires Inv(s) && s.phase != Finished
    ensures var s' := Step(s, CheckJobs);
            && (s'.phase == Checked <==>
                  && (forall id :: id in s.m.jobs && s.m.jobs[id].turnId == s.turnId ==>
                        s.m.jobs[id].status in {Completed, Failed, Cancelled})
                  && (forall u :: u in s.m.updates && u.turnId == s.turnId ==>
                        u.status !in {Completed, Failed, Cancelled}))
            && s'.delivered == s.delivered + Terminals(s.m.updates, s.turnId)
  {
    var selected, m' := Terminals(s.m.updates, s.turnId), DrainTerminal(s.m, s.turnId);
    SelectedWhen(s.m.updates, s.turnId);
    if selected == [] {
      DrainNothing(s.m, s.turnId);
      PendingWhen(s, s.turnId);
    }
    hide Inv, Terminals, DrainTerminal, NothingPending;
  }

  lemma SelectedWhen(updates: seq<Update>, turnId: Id)
    ensures Terminals(updates, turnId) == [] <==>
            forall u :: u in updates && u.turnId == turnId ==> u.status !in {Completed, Failed, Cancelled}
  {
    var selected := Terminals(updates, turnId);
    assert selected != [] ==> selected[0] in updates && TerminalOf(selected[0], turnId);
    forall u | u in updates && u.turnId == turnId && u.status in {Completed, Failed, Cancelled} ensures selected != [] {
      FilterHas(updates, v => TerminalOf(v, turnId), u);
    }
  }

  lemma PendingWhen(s: System, turnId: Id)
    requires Inv(s)
    ensures NothingPending(s.m, turnId) <==>
            forall id :: id in s.m.jobs && s.m.jobs[id].turnId == turnId ==>
              s.m.jobs[id].status in {Completed, Failed, Cancelled}
  {
    forall id | id in s.m.jobs && s.m.jobs[id].turnId == turnId && s.m.jobs[id].status in {Submitted, Running}
      ensures !NothingPending(s.m, turnId)
    {
      assert JobInv(s, id);
      var i :| 0 <= i < |s.m.live| && s.m.live[i] == id;
    }
  }

  /** Under every interleaving: a job has exactly one terminal event once it is over
      and none before, its terminal update is waiting, delivered or discarded exactly
      once, each of them tells how the job ended, and a turn that finished has no
      unfinished job and no update left. */
  lemma EveryRun(turnId: Id, actions: seq<Action>)
    ensures AllTruthful(Run(turnId, actions))
    ensures var s := Run(turnId, actions);
            && (forall id :: id in s.m.jobs ==>
                  var ends := if s.m.jobs[id].status.Terminal() then 1 else 0;
                  && Ends(s.m.journal, id) == ends
                  && Ends(s.m.updates, id) + Ends(s.delivered, id) + Ends(s.discarded, id) == ends)
            && (s.phase == Finished ==> Quiet(s.m, s.turnId))
  {
    RunKeepsInv(turnId, actions);
    RunTruthful(turnId, actions);
    var s := Run(turnId, actions);
    hide Ends, Run, Quiet, AllTruthful;
    assert forall id :: id in s.m.jobs ==> JobInv(s, id);
  }

  // ---------------------------------------------------------------- cancel and discard

  /** Jobs and updates of other turns are exactly as before. */
  ghost predicate OthersUntouched(m: Manager, m': Manager, turnId: Id) {
    && m'.jobs.Keys == m.jobs.Keys
    && (forall id :: id in m.jobs && m.jobs[id].turnId != turnId ==>
          m'.jobs[id] == m.jobs[id] && (id in m'.live <==> id in m.live))
    && Filter(m'.updates, (u: Update) => u.turnId != turnId) == Filter(m.updates, (u: Update) => u.turnId != turnId)
  }

  /** Each job of the turn is over or has been asked to stop. */
  ghost predicate Reached(m: Manager, turnId: Id) {
    forall id :: id in m.jobs && m.jobs[id].turnId == turnId ==> m.jobs[id].token || m.jobs[id].status.Terminal()
  }

  /** Neither a job nor an update of the turn is left. */
  ghost predicate Gone(m: Manager, turnId: Id) {
    && (forall id :: id in m.live ==> id in m.jobs && m.jobs[id].turnId != turnId)
    && (forall i :: 0 <= i < |m.updates| ==> m.updates[i].turnId != turnId)
  }

  lemma CancelLockedOthers(m: Manager, id: Id, turnId: Id)
    requires id in m.jobs && m.jobs[id].turnId == turnId
    ensures OthersUntouched(m, CancelLocked(m, id), turnId)
    ensures CancelLocked(m, id).jobs[id].token || CancelLocked(m, id).jobs[id].status.Terminal()
    ensures CancelLocked(m, id).jobs[id].turnId == turnId
    ensures forall x :: x in m.jobs && x != id ==> CancelLocked(m, id).jobs[x] == m.jobs[x]
    ensures CancelLocked(m, id).live == m.live
  {
    FilterOneMore(m.updates, Update(id, turnId, Cancelled), (u: Update) => u.turnId != turnId);
    hide Filter;
  }

  /** Cancelling a turn reaches each of its unfinished jobs and nobody else's. */
  lemma {:induction false} CancelAllReaches(m: Manager, ids: seq<Id>, turnId: Id)
    requires forall i :: 0 <= i < |ids| ==> ids[i] in m.jobs && m.jobs[ids[i]].turnId == turnId
    ensures OthersUntouched(m, CancelAll(m, ids), turnId) && CancelAll(m, ids).live == m.live
    ensures forall x :: x in m.jobs ==> CancelAll(m, ids).jobs[x].turnId == m.jobs[x].turnId
    ensures forall x :: x in m.jobs && (x in ids || m.jobs[x].token || m.jobs[x].status.Terminal()) ==>
              CancelAll(m, ids).jobs[x].token || CancelAll(m, ids).jobs[x].status.Terminal()
    decreases |ids|
  {
    if ids != [] {
      var next := CancelLocked(m, ids[0]);
      CancelLockedOthers(m, ids[0], turnId);
      assert ids == [ids[0]] + ids[1..];
      CancelAllReaches(next, ids[1..], turnId);
    }
  }

  lemma CancelTurnReaches(s: System, turnId: Id)
    requires Inv(s)
    ensures var m' := CancelTurn(s.m, turnId);
            OthersUntouched(s.m, m', turnId) && Reached(m', turnId)
  {
    var ids := OfTurn(s.m, turnId);
    CancelAllReaches(s.m, ids, turnId);
    forall id | id in s.m.jobs && s.m.jobs[id].turnId == turnId && !s.m.jobs[id].status.Terminal() ensures id in ids {
      assert JobInv(s, id);
      FilterHas(s.m.live, x => x in s.m.jobs && s.m.jobs[x].turnId == turnId, id);
    }
  }

  /** Waiting for the turn has ended, so the discard that follows leaves none of its
      jobs and none of its updates, and does not touch other turns. */
  lemma DiscardRemovesTurn(s: System, turnId: Id)
    requires Inv(s) && NoneUnfinished(s.m, turnId)
    ensures var m' := DrainUpdates(s.m, turnId);
            Gone(m', turnId) && OthersUntouched(s.m, m', turnId)
  {
    var selected, m' := Terminals(s.m.updates, turnId), DrainUpdates(s.m, turnId);
    forall id | id in s.m.jobs
      ensures id in m'.live <==> id in s.m.live && s.m.jobs[id].turnId != turnId
    {
      assert JobInv(s, id);
      SelectedJob(s, turnId, id);
      LiveAfter(s.m, selected, id);
    }
    var p := (u: Update) => u.turnId != turnId;
    KeepEverything(m'.updates, p);
    forall id | id in m'.live ensures id in s.m.jobs {
      LiveAfter(s.m, selected, id);
    }
  }

  /** Between the wait and the discard, no step but a submission for that turn can
      give it an unfinished job again. */
  lemma UnfinishedOnlyBySubmit(s: System, action: Action, turnId: Id)
    requires Inv(s) && NoneUnfinished(s.m, turnId)
    requires !(action.SubmitJob? && action.turnId == turnId)
    ensures NoneUnfinished(Step(s, action).m, turnId)
  {
    var s' := Step(s, action);
    forall id | id in s'.m.live && id in s'.m.jobs && s'.m.jobs[id].turnId == turnId
      ensures s'.m.jobs[id].status.Terminal()
    {
      if id in s.m.jobs {
        JobsOnlyAdvance(s, action, id);
      } else {
        NoNewJobs(s, action, id);
      }
    }
  }

  /** Any further steps from a state. */
  function Continue(s: System, actions: seq<Action>): (s': System)
    decreases |actions|
  {
    if actions == [] then s else Step(Continue(s, actions[..|actions| - 1]), Last(actions))
  }

  ghost predicate NoSubmission(actions: seq<Action>, turnId: Id) {
    forall k :: 0 <= k < |actions| ==> !(actions[k].SubmitJob? && actions[k].turnId == turnId)
  }

  lemma {:induction false} ContinueKeepsInv(s: System, actions: seq<Action>)
    requires Inv(s)
    ensures Inv(Continue(s, actions))
    decreases |actions|
  {
    hide Inv, Step;
    if actions != [] {
      ContinueKeepsInv(s, actions[..|actions| - 1]);
      StepKeepsInv(Continue(s, actions[..|actions| - 1]), Last(actions));
    }
  }

  /** What the wait for a turn has seen stays true, whatever other threads do, as long as
      nobody submits a job for it. */
  lemma {:induction false} WaitIsStable(s: System, actions: seq<Action>, turnId: Id)
    requires Inv(s) && NoneUnfinished(s.m, turnId) && NoSubmission(actions, turnId)
    ensures NoneUnfinished(Continue(s, actions).m, turnId)
    decreases |actions|
  {
    hide Inv, Step, NoneUnfinished;
    if actions != [] {
      var front := actions[..|actions| - 1];
      WaitIsStable(s, front, turnId);
      ContinueKeepsInv(s, front);
      assert !(Last(actions).SubmitJob? && Last(actions).turnId == turnId);
      UnfinishedOnlyBySubmit(Continue(s, front), Last(actions), turnId);
    }
  }

  /** A turn is cancelled, its wait ends in some later state, and later still, after any
      steps of other threads that submit nothing for it, its updates are drained: the
      cancel has reached each of its unfinished jobs, the drain leaves none of its jobs
      and none of its updates, and neither touches what belongs to other turns. */
  lemma CancelAndDiscard(s: System, turnId: Id, waiting: seq<Action>, mid: seq<Action>)
    requires Inv(s) && NoSubmission(mid, turnId)
    requires NoneUnfinished(Continue(Step(s, CancelTurnJobs(turnId)), waiting).m, turnId)
    ensures var s1 := Step(s, CancelTurnJobs(turnId));
            var s2 := Continue(Continue(s1, waiting), mid);
            var s3 := Step(s2, Discard(turnId));
            && OthersUntouched(s.m, s1.m, turnId) && Reached(s1.m, turnId)
            && OthersUntouched(s2.m, s3.m, turnId) && Gone(s3.m, turnId)
  {
    var s1 := Step(s, CancelTurnJobs(turnId));
    CancelTurnReaches(s, turnId);
    StepKeepsInv(s, CancelTurnJobs(turnId));
    assert s1.m == CancelTurn(s.m, turnId);
    var s2 := Continue(Continue(s1, waiting), mid);
    assert Step(s2, Discard(turnId)).m == DrainUpdates(s2.m, turnId);
    hide Inv, Step, NoneUnfinished, OthersUntouched, CancelTurn, DrainUpdates, Reached, Gone;
    ContinueKeepsInv(s1, waiting);
    ContinueKeepsInv(Continue(s1, waiting), mid);
    WaitIsStable(Continue(s1, waiting), mid, turnId);
    hide Continue;
    DiscardRemovesTurn(s2, turnId);
  }

  /** `id` keeps its turn and its cancellation, never changes again once it is terminal,
      and does not come alive again. */
  ghost predicate Advances(m: Manager, m': Manager, id: Id)
    requires id in m.jobs
  {
    && id in m'.jobs && m'.jobs[id].turnId == m.jobs[id].turnId
    && (m.jobs[id].token ==> m'.jobs[id].token)
    && (m.jobs[id].status.Terminal() ==> m'.jobs[id] == m.jobs[id])
    && (id in m'.live ==> id in m.live)
  }

  lemma WorkerAdvances(m: Manager, x: Id, exit: Exit, id: Id)
    requires x in m.jobs && id in m.jobs && FutureFits(m.jobs[id])
    ensures Advances(m, Take(m, x), id) && Advances(m, Enter(m, x), id)
    ensures Advances(m, Leave(m, x, exit), id) && Advances(m, CancelLocked(m, x), id)
  {
  }

  lemma DrainAdvances(m: Manager, turnId: Id, id: Id)
    requires id in m.jobs
    ensures Advances(m, DrainTerminal(m, turnId), id) && Advances(m, DrainUpdates(m, turnId), id)
  {
    LiveAfter(m, Terminals(m.updates, turnId), id);
  }

  lemma JobsOnlyAdvance(s: System, action: Action, id: Id)
    requires Inv(s) && id in s.m.jobs
    ensures Advances(s.m, Step(s, action).m, id)
  {
    assert FutureFits(s.m.jobs[id]) by { assert JobInv(s, id); }
    hide Inv, JobInv, FutureFits, Step;
    match action
    case TakeFuture(_) => WorkersAdvance(s, action, id);
    case EnterRun(_) => WorkersAdvance(s, action, id);
    case LeaveRun(_, _) => WorkersAdvance(s, action, id);
    case CancelJob(_) => WorkersAdvance(s, action, id);
    case CancelTurnJobs(turnId) => CancelledTurnAdvances(s, turnId, id);
    case _ => OthersAdvance(s, action, id);
  }

  lemma WorkersAdvance(s: System, action: Action, id: Id)
    requires id in s.m.jobs && FutureFits(s.m.jobs[id])
    requires action.TakeFuture? || action.EnterRun? || action.LeaveRun? || action.CancelJob?
    ensures Advances(s.m, Step(s, action).m, id)
  {
    hide Take, Enter, Leave, CancelLocked, FutureFits;
    if action.id in s.m.jobs {
      WorkerAdvances(s.m, action.id, if action.LeaveRun? then action.exit else Returned, id);
    }
  }

  lemma CancelledTurnAdvances(s: System, turnId: Id, id: Id)
    requires id in s.m.jobs && FutureFits(s.m.jobs[id])
    ensures Advances(s.m, Step(s, CancelTurnJobs(turnId)).m, id)
  {
    hide CancelAll, OfTurn, FutureFits;
    CancelAllKeepsFinished(s.m, OfTurn(s.m, turnId), id);
  }

  lemma OthersAdvance(s: System, action: Action, id: Id)
    requires id in s.m.jobs
    requires action.SubmitJob? || action.DeliverTerminal? || action.Discard? || action.CheckJobs? || action.Resume?
             || action.FinishTurn?
    ensures Advances(s.m, Step(s, action).m, id)
  {
    hide DrainTerminal, DrainUpdates, Terminals, NothingPending;
    match action
    case DeliverTerminal(turnId) => DrainAdvances(s.m, turnId, id);
    case Discard(turnId) => DrainAdvances(s.m, turnId, id);
    case CheckJobs => DrainAdvances(s.m, s.turnId, id);
    case _ =>
  }

  lemma NoNewJobs(s: System, action: Action, id: Id)
    requires id !in s.m.jobs && id in Step(s, action).m.jobs
    ensures action.SubmitJob? && Step(s, action).m.jobs[id].turnId == action.turnId
  {
    hide Filter, Mentioned;
    if action.CancelTurnJobs? { CancelAllKeepsFinished(s.m, OfTurn(s.m, action.turnId), id); }
  }

  lemma {:induction false} CancelAllKeepsFinished(m: Manager, ids: seq<Id>, id: Id)
    requires forall i :: 0 <= i < |ids| ==> ids[i] in m.jobs
    ensures CancelAll(m, ids).live == m.live && CancelAll(m, ids).jobs.Keys == m.jobs.Keys
    ensures id in m.jobs ==> CancelAll(m, ids).jobs[id].turnId == m.jobs[id].turnId
                             && (m.jobs[id].token ==> CancelAll(m, ids).jobs[id].token)
                             && (m.jobs[id].status.Terminal() ==> CancelAll(m, ids).jobs[id] == m.jobs[id])
    decreases |ids|
  {
    if ids != [] {
      var next := CancelLocked(m, ids[0]);
      assert next.jobs.Keys == m.jobs.Keys;
      CancelAllKeepsFinished(next, ids[1..], id);
    }
  }

  lemma CancelAllStep(m: Manager, ids: seq<Id>)
    requires ids != [] && forall i :: 0 <= i < |ids| ==> ids[i] in m.jobs
    ensures var next := CancelLocked(m, ids[0]);
            && (forall i :: 0 <= i < |ids[1..]| ==> ids[1..][i] in next.jobs)
            && CancelAll(m, ids) == CancelAll(next, ids[1..])
  {
  }

  // ---------------------------------------------------------------- the manager object

  class JobManager {
    var jobs: map<Id, Job>
    var live: seq<Id>
    var updates: seq<Update>
    var journal: seq<Update>

    function View(): (m: Manager)
      reads this
    {
      Manager(jobs, live, updates, journal)
    }

    constructor ()
      ensures View() == Manager(map[], [], [], [])
    {
      jobs, live, updates, journal := map[], [], [], [];
    }

    method SubmitJob(id: Id, turnId: Id)
      requires id !in jobs
      modifies this
      ensures View() == Submit(old(View()), id, turnId)
    {
      jobs := jobs[id := Job(turnId, Submitted, false, Pending)];
      live := live + [id];
      updates := updates + [Update(id, turnId, Submitted)];
    }

    method FinishLocked(id: Id, status: Status)
      requires id in jobs
      modifies this
      ensures View() == Finish(old(View()), id, status)
    {
      jobs := jobs[id := jobs[id].(status := status)];
      journal := journal + [Update(id, jobs[id].turnId, status)];
      updates := updates + [Update(id, jobs[id].turnId, status)];
    }

    method CancelJobLocked(id: Id)
      requires id in jobs
      modifies this
      ensures View() == CancelLocked(old(View()), id)
    {
      if !jobs[id].status.Terminal() {
        jobs := jobs[id := jobs[id].(token := true)];
        if jobs[id].future == Pending {
          jobs := jobs[id := jobs[id].(future := Dropped)];
          FinishLocked(id, Cancelled);
        }
      }
    }

    method CancelTurnJobs(turnId: Id)
      modifies this
      ensures View() == CancelTurn(old(View()), turnId)
    {
      hide CancelLocked, OfTurn;
      var ids := OfTurn(View(), turnId);
      assert ids[0..] == ids;
      for i := 0 to |ids|
        invariant forall k :: 0 <= k < |ids[i..]| ==> ids[i..][k] in View().jobs
        invariant CancelAll(View(), ids[i..]) == CancelTurn(old(View()), turnId)
      {
        CancelAllStep(View(), ids[i..]);
        assert ids[i..][0] == ids[i] && ids[i..][1..] == ids[i + 1..];
        hide CancelAll;
        CancelJobLocked(ids[i]);
      }
      assert ids[|ids|..] == [];
    }

    method DrainTerminalState(turnId: Id) returns (selected: seq<Update>, pending: bool)
      modifies this
      ensures selected == Terminals(old(updates), turnId)
      ensures View() == DrainTerminal(old(View()), turnId)
      ensures pending == !NothingPending(View(), turnId)
    {
      selected := Terminals(updates, turnId);
      updates := Filter(updates, (u: Update) => !Mentioned(selected, u.jobId));
      live := Filter(live, id => !Mentioned(selected, id));
      pending := false;
      for i := 0 to |live|
        invariant View() == DrainTerminal(old(View()), turnId)
        invariant pending <==> exists k :: 0 <= k < i && live[k] in jobs && jobs[live[k]].turnId == turnId
                                           && !jobs[live[k]].status.Terminal()
      {
        if live[i] in jobs && jobs[live[i]].turnId == turnId && !jobs[live[i]].status.Terminal() {
          pending := true;
        }
      }
    }

    method DrainTurnUpdates(turnId: Id) returns (selected: seq<Update>)
      modifies this
      ensures selected == Filter(old(updates), (u: Update) => u.turnId == turnId)
      ensures View() == DrainUpdates(old(View()), turnId)
    {
      selected := Filter(updates, (u: Update) => u.turnId == turnId);
      var terminal := Terminals(updates, turnId);
      updates := Filter(updates, (u: Update) => u.turnId != turnId);
      live := Filter(live, id => !Mentioned(terminal, id));
    }
  }
}
