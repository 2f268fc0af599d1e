/** Steering and cancellation of agent turns: the mailbox, the per-turn control, the
    runner that queues turns, and the protocol they form with the agent's safe points. */
module TurnControl {
  import opened Common
  import opened Messages

  datatype Steer = Steer(id: Id, text: string)

  // ---------------------------------------------------------------- mailbox

  datatype Mailbox = Mailbox(items: seq<Steer>, received: set<Id>, accepting: bool) {
    /** Accepted, and the mailbox afterwards; a repeated id is acknowledged once more. */
    function Submit(s: Steer): (r: (bool, Mailbox)) {
      if !accepting then (false, this)
      else if s.id in received then (true, this)
      else (true, Mailbox(items + [s], received + {s.id}, true))
    }

    function Close(): (m: Mailbox) {
      Mailbox([], received, false)
    }
  }

  const EMPTY := Mailbox([], {}, true)

  class UserSteeringMailbox {
    var items: seq<Steer>
    var received: set<Id>
    var accepting: bool

    function View(): (m: Mailbox)
      reads this
    {
      Mailbox(items, received, accepting)
    }

    constructor ()
      ensures View() == EMPTY
    {
      items, received, accepting := [], {}, true;
    }

    method Submit(s: Steer) returns (ok: bool)
      modifies this
      ensures (ok, View()) == old(View()).Submit(s)
    {
      if !accepting {
        return false;
      }
      if s.id in received {
        return true;
      }
      received := received + {s.id};
      items := items + [s];
      return true;
    }

    method Drain() returns (steers: seq<Steer>)
      modifies this
      ensures steers == old(items) && View() == old(View()).(items := [])
    {
      steers := items;
      items := [];
    }

    /** Drains, or atomically closes an empty mailbox. */
    method DrainOrClose() returns (steers: seq<Steer>)
      modifies this
      ensures steers == old(items)
      ensures View() == if old(items) == [] then old(View()).(accepting := false) else old(View()).(items := [])
    {
      if items != [] {
        steers := items;
        items := [];
        return;
      }
      accepting := false;
      steers := [];
    }

    method Close()
      modifies this
      ensures View() == old(View()).Close()
    {
      accepting := false;
      items := [];
    }
  }

  // ---------------------------------------------------------------- control of one turn

  datatype Control = Control(mail: Mailbox, cancelled: bool, finished: bool) {
    predicate Over() { cancelled || finished }

    function Steer(s: Steer): (r: (bool, Control)) {
      if Over() then (false, this)
      else var (ok, mail') := mail.Submit(s); (ok, this.(mail := mail'))
    }

    function Drain(): (r: (seq<Steer>, Control)) {
      if Over() then ([], this) else (mail.items, this.(mail := mail.(items := [])))
    }

    function Finish(): (r: (seq<Steer>, Control)) {
      if Over() then ([], this)
      else if mail.items == [] then ([], Control(mail.(accepting := false), false, true))
      else (mail.items, this.(mail := mail.(items := [])))
    }

    function Cancel(): (r: (bool, Control)) {
      if Over() then (false, this) else (true, Control(mail.Close(), true, false))
    }
  }

  const FRESH := Control(EMPTY, false, false)

  class TurnControl {
    const steering: UserSteeringMailbox
    var cancelled: bool
    var finished: bool

    function View(): (c: Control)
      reads this, steering
    {
      Control(steering.View(), cancelled, finished)
    }

    constructor ()
      ensures View() == FRESH && fresh(steering)
    {
      steering := new UserSteeringMailbox();
      cancelled, finished := false, false;
    }

    method Steer(s: Steer) returns (ok: bool)
      modifies this, steering
      ensures (ok, View()) == old(View()).Steer(s)
    {
      if cancelled || finished {
        return false;
      }
      ok := steering.Submit(s);
    }

    method DrainSteering() returns (steers: seq<Steer>)
      modifies this, steering
      ensures (steers, View()) == old(View()).Drain()
    {
      if cancelled || finished {
        return [];
      }
      steers := steering.Drain();
    }

    method Finish() returns (steers: seq<Steer>)
      modifies this, steering
      ensures (steers, View()) == old(View()).Finish()
    {
      if cancelled || finished {
        return [];
      }
      steers := steering.DrainOrClose();
      if steers == [] {
        finished := true;
      }
    }

    method Cancel() returns (ok: bool)
      modifies this, steering
      ensures (ok, View()) == old(View()).Cancel()
    {
      if finished || cancelled {
        return false;
      }
      cancelled := true;
      steering.Close();
      return true;
    }
  }

  // ---------------------------------------------------------------- the runner

  datatype Runner = Runner(
    turnId: Option<Id>,
    control: Option<Control>,
    queued: set<Id>,
    pendingSteers: map<Id, seq<Steer>>,
    pendingCancels: set<Id>,
    shut: bool)
  {
    predicate Active(t: Id) { control.Some? && turnId == Some(t) }

    function Pending(t: Id): (r: seq<Steer>) {
      if t in pendingSteers then pendingSteers[t] else []
    }

    function Steer(t: Id, s: Steer): (r: (bool, Runner)) {
      if Active(t) then var (ok, c) := control.value.Steer(s); (ok, this.(control := Some(c)))
      else if t in queued && !shut then (true, this.(pendingSteers := pendingSteers[t := Pending(t) + [s]]))
      else (false, this)
    }

    function Cancel(t: Id): (r: (bool, Runner)) {
      if Active(t) then var (ok, c) := control.value.Cancel(); (ok, this.(control := Some(c)))
      else if t in queued then (false, this.(pendingCancels := pendingCancels + {t}))
      else (false, this)
    }

    function Shutdown(): (r: (bool, Runner)) {
      if control.Some? then var (ok, c) := control.value.Cancel(); (ok, this.(control := Some(c), shut := true))
      else (false, this.(shut := true))
    }

    /** The lock region that opens `run_turn`. */
    function Begin(t: Id): (r: Runner) {
      var steered := SteerAll(FRESH, Pending(t));
      var c := if t in pendingCancels || shut then steered.Cancel().1 else steered;
      Runner(Some(t), Some(c), queued - {t}, pendingSteers - {t}, pendingCancels - {t}, shut)
    }

    /** The lock region that closes `run_turn`. */
    function End(): (r: Runner) {
      this.(turnId := None, control := None)
    }
  }

  function SteerAll(c: Control, steers: seq<Steer>): (r: Control)
    decreases |steers|
  {
    if steers == [] then c else SteerAll(c, steers[..|steers| - 1]).Steer(Last(steers)).1
  }

  class TurnRunner {
    var turnId: Option<Id>
    var control: TurnControl?
    var queued: set<Id>
    var pendingSteers: map<Id, seq<Steer>>
    var pendingCancels: set<Id>
    var shut: bool

    ghost function Repr(): (r: set<object>)
      reads this
    {
      if control == null then {this} else {this, control, control.steering}
    }

    function View(): (r: Runner)
      reads Repr()
    {
      Runner(turnId, if control == null then None else Some(control.View()),
             queued, pendingSteers, pendingCancels, shut)
    }

    constructor ()
      ensures View() == Runner(None, None, {}, map[], {}, false) && control == null
    {
      turnId, control, queued, pendingSteers, pendingCancels, shut := None, null, {}, map[], {}, false;
    }

    method Enqueue(t: Id)
      modifies this
      ensures View() == old(View()).(queued := old(queued) + {t})
    {
      queued := queued + {t};
    }

    method Steer(t: Id, s: Steer) returns (ok: bool)
      modifies Repr()
      ensures (ok, View()) == old(View()).Steer(t, s)
    {
      if control != null && turnId == Some(t) {
        ok := control.Steer(s);
      } else if t in queued && !shut {
        var waiting := if t in pendingSteers then pendingSteers[t] else [];
        pendingSteers := pendingSteers[t := waiting + [s]];
        ok := true;
      } else {
        ok := false;
      }
    }

    method Cancel(t: Id) returns (ok: bool)
      modifies Repr()
      ensures (ok, View()) == old(View()).Cancel(t)
    {
      ok := false;
      if control != null && turnId == Some(t) {
        ok := control.Cancel();
      } else if t in queued {
        pendingCancels := pendingCancels + {t};
      }
    }

    method Shutdown() returns (ok: bool)
      modifies Repr()
      ensures (ok, View()) == old(View()).Shutdown()
    {
      shut := true;
      ok := false;
      if control != null {
        ok := control.Cancel();
      }
    }

    /** Err when a turn is already running. */
    method Begin(t: Id) returns (r: Result<TurnControl>)
      modifies this
      ensures r.Ok? <==> old(turnId) == None
      ensures r.Err? ==> View() == old(View())
      ensures r.Ok? ==> View() == old(View()).Begin(t)
      ensures r.Ok? ==> control == r.value && fresh(r.value) && fresh(r.value.steering)
    {
      var c := new TurnControl();
      if turnId.Some? {
        return Err;
      }
      turnId, control, queued := Some(t), c, queued - {t};
      var waiting := if t in pendingSteers then pendingSteers[t] else [];
      pendingSteers := pendingSteers - {t};
      for i := 0 to |waiting|
        invariant c.View() == SteerAll(FRESH, waiting[..i])
        invariant turnId == Some(t) && control == c && queued == old(queued) - {t}
        invariant pendingSteers == old(pendingSteers) - {t}
        invariant pendingCancels == old(pendingCancels) && shut == old(shut)
      {
        assert waiting[..i + 1][..i] == waiting[..i];
        var _ := c.Steer(waiting[i]);
      }
      assert waiting[..|waiting|] == waiting;
      if t in pendingCancels || shut {
        var _ := c.Cancel();
      }
      pendingCancels := pendingCancels - {t};
      return Ok(c);
    }

    method End()
      modifies this
      ensures View() == old(View()).End()
    {
      control := null;
      turnId := None;
    }
  }

  // ---------------------------------------------------------------- protocol

  /** First acceptance of every id, in order. */
  function Dedup(steers: seq<Steer>): (r: seq<Steer>)
    decreases |steers|
  {
    if steers == [] then []
    else
      var front := Dedup(steers[..|steers| - 1]);
      if Last(steers).id in Ids(front) then front else front + [Last(steers)]
  }

  function Ids(steers: seq<Steer>): (r: set<Id>) {
    set i | 0 <= i < |steers| :: steers[i].id
  }

  datatype Status = Completed | Cancelled | Failed

  /** Where the agent thread is: between safe points, holding what a drain returned,
      appending it to the session, or past its last safe point. */
  datatype Phase = Working | Drained(finishing: bool) | Appending | Ended(status: Status)

  /** The agent's side of the running turn. `acks` records every steer that was
      answered with True, `appended` what reached the session. */
  datatype Agent = Agent(phase: Phase, hand: seq<Steer>, appended: seq<Steer>, acks: seq<Steer>, cancelAsked: bool)

  datatype Outcome = Outcome(turnId: Id, status: Status, acks: seq<Steer>, appended: seq<Steer>, cancelAsked: bool)

  datatype System = System(runner: Runner, agent: Option<Agent>, log: seq<Outcome>)

  /** One atomic step: a lock region of some thread, or the agent between two of them.
      `raise` says whether an external cancellation source fires at a check. */
  datatype Action =
    | Enqueue(t: Id)
    | SteerTurn(t: Id, steer: Steer)
    | CancelTurn(t: Id)
    | ShutDown
    | BeginTurn(t: Id)
    | DrainPoint
    | FinishPoint
    | CheckCancelled(raise: bool)
    | AppendSteer(rejected: bool)
    | Fail
    | EndTurn

  function Init(): (s: System) {
    System(Runner(None, None, {}, map[], {}, false), None, [])
  }

  /** An action that is not enabled changes nothing. */
  function Step(s: System, action: Action): (s': System) {
    match action
    case Enqueue(t) => s.(runner := s.runner.(queued := s.runner.queued + {t}))
    case SteerTurn(t, steer) =>
      var (ok, runner) := s.runner.Steer(t, steer);
      System(runner,
             if ok && s.runner.Active(t) && s.agent.Some?
             then Some(s.agent.value.(acks := s.agent.value.acks + [steer])) else s.agent,
             s.log)
    case CancelTurn(t) =>
      var (ok, runner) := s.runner.Cancel(t);
      System(runner, if s.agent.Some? && ok then Some(s.agent.value.(cancelAsked := true)) else s.agent, s.log)
    case ShutDown =>
      var (ok, runner) := s.runner.Shutdown();
      System(runner, if s.agent.Some? && ok then Some(s.agent.value.(cancelAsked := true)) else s.agent, s.log)
    case BeginTurn(t) =>
      if s.runner.turnId.Some? then s
      else System(s.runner.Begin(t),
                  Some(Agent(Working, [], [], s.runner.Pending(t), t in s.runner.pendingCancels || s.runner.shut)),
                  s.log)
    case EndTurn =>
      if s.agent.Some? && s.agent.value.phase.Ended? && s.runner.turnId.Some? then
        var a := s.agent.value;
        System(s.runner.End(), None,
               s.log + [Outcome(s.runner.turnId.value, a.phase.status, a.acks, a.appended, a.cancelAsked)])
      else s
    case _ =>
      if s.agent.None? || s.runner.control.None? then s
      else
        var (c, a) := AgentStep(s.runner.control.value, s.agent.value, action);
        s.(runner := s.runner.(control := Some(c)), agent := Some(a))
  }

  /** The agent thread: it reaches a safe point, must look for cancellation before it
      uses what a drain returned, and completes only when a finishing drain is empty. */
  function AgentStep(c: Control, a: Agent, action: Action): (r: (Control, Agent)) {
    match action
    case DrainPoint =>
      if a.phase.Working? then var (steers, c') := c.Drain(); (c', a.(phase := Drained(false), hand := steers))
        else (c, a)
    case FinishPoint =>
      if a.phase.Working? then var (steers, c') := c.Finish(); (c', a.(phase := Drained(true), hand := steers))
        else (c, a)
    case CheckCancelled(raise) =>
      if !a.phase.Working? && !a.phase.Drained? then (c, a)
      else if c.cancelled || raise then (c, a.(phase := Ended(Cancelled)))
      else if a.phase.Working? then (c, a)
      else if a.hand != [] then (c, a.(phase := Appending))
      else (c, a.(phase := if a.phase.finishing then Ended(Completed) else Working))
    case AppendSteer(rejected) =>
      if !a.phase.Appending? then (c, a)
      else if a.hand == [] then (c, a.(phase := Working))
      else if rejected then (c, a.(phase := Ended(Failed)))
      else (c, a.(hand := a.hand[1..], appended := a.appended + [a.hand[0]]))
    case Fail =>
      if a.phase.Ended? then (c, a) else (c, a.(phase := Ended(Failed)))
    case _ => (c, a)
  }

  /** What always holds between the control and the agent of a running turn. */
  ghost predicate TurnInv(c: Control, a: Agent) {
    && !(c.cancelled && c.finished)
    && c.mail.received == Ids(Dedup(a.acks))
    && (c.Over() ==> !c.mail.accepting && c.mail.items == [])
    && (!c.Over() ==> c.mail.accepting)
    && (!c.cancelled ==> Dedup(a.acks) == a.appended + a.hand + c.mail.items)
    && (c.finished ==> a.hand == [] && (a.phase == Drained(true) || a.phase.Ended?))
    && (a.phase == Drained(true) && a.hand == [] ==> c.Over())
    && (a.phase.Working? ==> a.hand == [])
    && (a.phase == Ended(Completed) ==> c.finished)
    && (a.cancelAsked ==> c.cancelled)
  }

  /** A completed turn appended exactly the acknowledged steers, each id once and in
      order, and nobody's cancellation of it was acknowledged or queued. */
  ghost predicate Honest(o: Outcome) {
    o.status == Completed ==> o.appended == Dedup(o.acks) && !o.cancelAsked
  }

  ghost predicate Inv(s: System) {
    && (s.agent.Some? <==> s.runner.control.Some?)
    && (s.agent.Some? <==> s.runner.turnId.Some?)
    && (s.agent.Some? ==> TurnInv(s.runner.control.value, s.agent.value))
    && forall i :: 0 <= i < |s.log| ==> Honest(s.log[i])
  }

  lemma DedupStep(acks: seq<Steer>, steer: Steer)
    ensures Dedup(acks + [steer]) == if steer.id in Ids(Dedup(acks)) then Dedup(acks) else Dedup(acks) + [steer]
    ensures Ids(Dedup(acks + [steer])) == Ids(Dedup(acks)) + {steer.id}
  {
    assert (acks + [steer])[..|acks|] == acks;
    IdsSnoc(Dedup(acks), steer);
  }

  lemma IdsSnoc(steers: seq<Steer>, last: Steer)
    ensures Ids(steers + [last]) == Ids(steers) + {last.id}
  {
    var all := steers + [last];
    forall x ensures x in Ids(all) <==> x in Ids(steers) + {last.id} {
      if x in Ids(steers) {
        var i :| 0 <= i < |steers| && steers[i].id == x;
        assert all[i].id == x;
      }
      assert all[|steers|].id == last.id;
    }
  }

  lemma SteerKeepsInv(c: Control, a: Agent, steer: Steer)
    requires TurnInv(c, a)
    ensures var (ok, c') := c.Steer(steer);
            && (ok <==> !c.Over())
            && TurnInv(c', if ok then a.(acks := a.acks + [steer]) else a)
  {
    var (ok, c') := c.Steer(steer);
    DedupStep(a.acks, steer);
    if ok && steer.id !in c.mail.received {
      assert a.appended + a.hand + c'.mail.items == a.appended + a.hand + c.mail.items + [steer];
    }
  }

  lemma {:induction false} BeginInv(pending: seq<Steer>)
    ensures var c := SteerAll(FRESH, pending);
            && !c.Over()
            && TurnInv(c, Agent(Working, [], [], pending, false))
    decreases |pending|
  {
    if pending == [] {
      assert Ids([]) == {};
    } else {
      var front := pending[..|pending| - 1];
      BeginInv(front);
      assert pending == front + [Last(pending)];
      assert SteerAll(FRESH, pending) == SteerAll(FRESH, front).Steer(Last(pending)).1;
      hide TurnInv, SteerAll;
      SteerKeepsInv(SteerAll(FRESH, front), Agent(Working, [], [], front, false), Last(pending));
    }
  }

  lemma CancelKeepsInv(c: Control, a: Agent)
    requires TurnInv(c, a)
    ensures var (ok, c') := c.Cancel();
            TurnInv(c', if ok then a.(cancelAsked := true) else a)
  {
  }

  lemma AgentKeepsInv(c: Control, a: Agent, action: Action)
    requires TurnInv(c, a)
    ensures var (c', a') := AgentStep(c, a, action); TurnInv(c', a')
  {
    var (c', a') := AgentStep(c, a, action);
    if action.AppendSteer? && a.phase.Appending? && a.hand != [] && !action.rejected {
      assert a.appended + a.hand == a'.appended + a'.hand;
    }
  }

  lemma StepKeepsInv(s: System, action: Action)
    requires Inv(s)
    ensures Inv(Step(s, action))
  {
    hide TurnInv, AgentStep, SteerAll;
    match action
    case SteerTurn(t, steer) =>
      if s.runner.Active(t) { SteerKeepsInv(s.runner.control.value, s.agent.value, steer); }
    case CancelTurn(t) =>
      if s.runner.Active(t) { CancelKeepsInv(s.runner.control.value, s.agent.value); }
    case ShutDown =>
      if s.agent.Some? { CancelKeepsInv(s.runner.control.value, s.agent.value); }
    case BeginTurn(t) =>
      if s.runner.turnId.None? {
        var pending := s.runner.Pending(t);
        BeginInv(pending);
        CancelKeepsInv(SteerAll(FRESH, pending), Agent(Working, [], [], pending, false));
      }
    case EndTurn =>
      if s.agent.Some? { EndedIsHonest(s.runner.control.value, s.agent.value); }
    case Enqueue(_) =>
    case DrainPoint =>
      if s.agent.Some? { AgentKeepsInv(s.runner.control.value, s.agent.value, action); }
    case FinishPoint =>
      if s.agent.Some? { AgentKeepsInv(s.runner.control.value, s.agent.value, action); }
    case CheckCancelled(_) =>
      if s.agent.Some? { AgentKeepsInv(s.runner.control.value, s.agent.value, action); }
    case AppendSteer(_) =>
      if s.agent.Some? { AgentKeepsInv(s.runner.control.value, s.agent.value, action); }
    case Fail =>
      if s.agent.Some? { AgentKeepsInv(s.runner.control.value, s.agent.value, action); }
  }

  lemma EndedIsHonest(c: Control, a: Agent)
    requires TurnInv(c, a)
    ensures a.phase == Ended(Completed) ==> a.appended == Dedup(a.acks) && !a.cancelAsked
  {
    if a.phase == Ended(Completed) {
      assert a.appended + a.hand + c.mail.items == a.appended;
    }
  }

  function Run(actions: seq<Action>): (s: System)
    decreases |actions|
  {
    if actions == [] then Init() else Step(Run(actions[..|actions| - 1]), Last(actions))
  }

  /** Every interleaving of steers, cancels, queueing, shutdown and safe points: all
      recorded outcomes are honest, and the running turn keeps its accounts. */
  lemma {:induction false} RunsAreHonest(actions: seq<Action>)
    ensures Inv(Run(actions))
    ensures forall i :: 0 <= i < |Run(actions).log| ==> Honest(Run(actions).log[i])
    decreases |actions|
  {
    if actions != [] {
      RunsAreHonest(actions[..|actions| - 1]);
      StepKeepsInv(Run(actions[..|actions| - 1]), Last(actions));
    }
  }

  /** A turn is running and a finishing drain has closed it. */
  predicate Closed(s: System) {
    s.agent.Some? && s.runner.turnId.Some? && s.runner.control.Some? && s.runner.control.value.finished
  }

  /** The same turn is still closed, and nothing has been accepted for it. */
  predicate StaysClosed(s: System, s': System) {
    && Closed(s) && Closed(s') && s'.runner.turnId == s.runner.turnId && s'.log == s.log
    && s'.agent.value.acks == s.agent.value.acks && s'.agent.value.appended == s.agent.value.appended
    && s'.agent.value.cancelAsked == s.agent.value.cancelAsked
  }

  lemma ClosedStep(s: System, action: Action)
    requires Inv(s) && Closed(s) && action != EndTurn
    ensures StaysClosed(s, Step(s, action))
  {
  }

  /** Once a finishing drain has closed the turn, nothing that any thread does before the
      turn ends gets a steer or a cancel accepted for it: requests for it are refused, its
      acknowledgements stay as they were, and so does what it appended. */
  lemma {:induction false} NothingAfterFinish(pre: seq<Action>, mid: seq<Action>)
    requires Closed(Run(pre)) && EndTurn !in mid
    ensures StaysClosed(Run(pre), Run(pre + mid))
    ensures var r, t := Run(pre + mid).runner, Run(pre).runner.turnId.value;
            && (forall steer :: r.Steer(t, steer) == (false, r))
            && r.Cancel(t) == (false, r)
            && r.Shutdown() == (false, r.(shut := true))
    decreases |mid|
  {
    if mid == [] {
      assert pre + mid == pre;
    } else {
      var front := mid[..|mid| - 1];
      NothingAfterFinish(pre, front);
      assert (pre + mid)[..|pre + mid| - 1] == pre + front && Last(pre + mid) == Last(mid);
      RunsAreHonest(pre + front);
      hide Run, Inv;
      ClosedStep(Run(pre + front), Last(mid));
      hide Step;
    }
  }

  lemma IdsHave(steers: seq<Steer>)
    ensures forall i :: 0 <= i < |steers| ==> steers[i].id in Ids(steers)
  {
  }

  lemma {:induction false} DedupHasEachIdOnce(steers: seq<Steer>)
    ensures forall i, j :: 0 <= i < j < |Dedup(steers)| ==> Dedup(steers)[i].id != Dedup(steers)[j].id
    ensures Ids(Dedup(steers)) == Ids(steers)
    decreases |steers|
  {
    if steers != [] {
      var front := steers[..|steers| - 1];
      assert steers == front + [Last(steers)];
      hide Dedup, Ids;
      DedupHasEachIdOnce(front);
      DedupStep(front, Last(steers));
      IdsSnoc(front, Last(steers));
      IdsHave(Dedup(front));
    }
  }

  /** The acknowledged steer with this id that came first. */
  ghost predicate FirstOfItsId(steers: seq<Steer>, i: nat) {
    i < |steers| && forall j :: 0 <= j < i ==> steers[j].id != steers[i].id
  }

  ghost predicate CameBefore(steers: seq<Steer>, x: Steer, y: Steer) {
    exists i, j :: 0 <= i < j < |steers| && steers[i] == x && steers[j] == y
                   && FirstOfItsId(steers, i) && FirstOfItsId(steers, j)
  }

  /** `d` has the first steer of each id, in order of arrival, and nothing else. */
  ghost predicate KeepsFirst(steers: seq<Steer>, d: seq<Steer>) {
    && (forall x :: x in d <==> exists i :: 0 <= i < |steers| && steers[i] == x && FirstOfItsId(steers, i))
    && (forall a, b :: 0 <= a < b < |d| ==> CameBefore(steers, d[a], d[b]))
  }

  lemma {:induction false} DedupKeepsFirst(steers: seq<Steer>)
    ensures KeepsFirst(steers, Dedup(steers))
    decreases |steers|
  {
    if steers == [] {
      hide FirstOfItsId;
    } else {
      var front := steers[..|steers| - 1];
      DedupKeepsFirst(front);
      DedupHasEachIdOnce(front);
      hide KeepsFirst, Ids;
      IdsAre(front, Last(steers).id);
      assert steers == front + [Last(steers)];
      OneMoreKept(front, Last(steers), Dedup(front));
    }
  }

  lemma FirstStill(front: seq<Steer>, last: Steer)
    ensures forall i :: 0 <= i < |front| ==> (FirstOfItsId(front + [last], i) <==> FirstOfItsId(front, i))
    ensures FirstOfItsId(front + [last], |front|) <==> !exists i :: 0 <= i < |front| && front[i].id == last.id
  {
    assert forall i :: 0 <= i < |front| ==> (front + [last])[i] == front[i];
  }

  lemma OneMoreKept(front: seq<Steer>, last: Steer, d: seq<Steer>)
    requires KeepsFirst(front, d)
    ensures KeepsFirst(front + [last], if exists i :: 0 <= i < |front| && front[i].id == last.id then d else d + [last])
  {
    var n, steers := |front|, front + [last];
    var d' := if exists i :: 0 <= i < n && front[i].id == last.id then d else d + [last];
    FirstStill(front, last);
    hide FirstOfItsId;
    forall x ensures x in d' <==> exists i :: 0 <= i < |steers| && steers[i] == x && FirstOfItsId(steers, i) {
      if x in d {
        var i :| 0 <= i < n && front[i] == x && FirstOfItsId(front, i);
        assert steers[i] == x;
      }
      assert steers[n] == last;
    }
    forall a, b | 0 <= a < b < |d'| ensures CameBefore(steers, d'[a], d'[b]) {
      assert d[a] in d;
      if b < |d| {
        CameBeforeStill(front, last, d[a], d[b]);
      } else {
        var i :| 0 <= i < n && front[i] == d[a] && FirstOfItsId(front, i);
        assert steers[i] == d[a] && steers[n] == last;
      }
    }
  }

  lemma CameBeforeStill(front: seq<Steer>, last: Steer, x: Steer, y: Steer)
    requires CameBefore(front, x, y)
    ensures CameBefore(front + [last], x, y)
  {
    var i, j :| 0 <= i < j < |front| && front[i] == x && front[j] == y
                && FirstOfItsId(front, i) && FirstOfItsId(front, j);
    var all := front + [last];
    assert all[i] == x && all[j] == y && FirstOfItsId(all, i) && FirstOfItsId(all, j);
  }

  // ---------------------------------------------------------------- what requests do

  /** Turn `t` runs, and neither a cancel nor a finishing drain has closed it. */
  ghost predicate Open(r: Runner, t: Id) {
    r.turnId == Some(t) && r.control.Some? && !r.control.value.cancelled && !r.control.value.finished
  }

  ghost predicate RunsNow(r: Runner, t: Id) {
    r.turnId == Some(t) && r.control.Some?
  }

  /** A steer is accepted exactly when its turn is open, or waits in the queue of a runner
      that is not shutting down. An open turn holds it from then on unless a steer of that id
      was accepted before; a waiting turn keeps it; otherwise nothing changes. */
  lemma SteerDoes(s: System, t: Id, steer: Steer)
    requires Inv(s)
    ensures var (r, (ok, r')) := (s.runner, s.runner.Steer(t, steer));
            && (ok <==> Open(r, t) || (!RunsNow(r, t) && t in r.queued && !r.shut))
            && (Open(r, t) ==>
                  && s.agent.Some? && r'.control.Some?
                  && (var repeated := exists i :: 0 <= i < |s.agent.value.acks| && s.agent.value.acks[i].id == steer.id;
                      r'.control.value.mail.items ==
                      if repeated then r.control.value.mail.items else r.control.value.mail.items + [steer])
                  && Open(r', t) && r' == r.(control := r'.control))
            && (ok && !Open(r, t) ==>
                  r' == r.(pendingSteers := r.pendingSteers[t :=
                           if t in r.pendingSteers then r.pendingSteers[t] + [steer] else [steer]]))
            && (!ok ==> r' == r)
  {
    if Open(s.runner, t) {
      var acks := s.agent.value.acks;
      DedupHasEachIdOnce(acks);
      IdsAre(acks, steer.id);
      hide Dedup, Ids;
    }
    assert [] + [steer] == [steer];
  }

  lemma IdsAre(steers: seq<Steer>, id: Id)
    ensures id in Ids(steers) <==> exists i :: 0 <= i < |steers| && steers[i].id == id
  {
  }

  /** A cancel is acknowledged exactly when its turn is open, which closes it and empties its
      mailbox. For a turn that waits it is noted, and otherwise nothing changes. */
  lemma CancelDoes(s: System, t: Id)
    requires Inv(s)
    ensures var (r, (ok, r')) := (s.runner, s.runner.Cancel(t));
            && (ok <==> Open(r, t))
            && (ok ==> r'.control.Some? && r'.control.value.cancelled && !r'.control.value.finished
                       && r'.control.value.mail.items == [] && r' == r.(control := r'.control))
            && (!ok && !RunsNow(r, t) && t in r.queued ==> r' == r.(pendingCancels := r.pendingCancels + {t}))
            && (!ok && (RunsNow(r, t) || t !in r.queued) ==> r' == r)
  {
  }

  /** Shutting down cancels the turn that runs unless it is over, and touches nothing else. */
  lemma ShutdownDoes(s: System)
    requires Inv(s)
    ensures var (r, (ok, r')) := (s.runner, s.runner.Shutdown());
            && (ok <==> exists t :: Open(r, t))
            && (ok ==> r'.control.Some? && r'.control.value.cancelled && r'.control.value.mail.items == [])
            && (!ok ==> r'.control == r.control)
            && r' == r.(shut := true, control := r'.control)
  {
    assert s.runner.control.Some? && !s.runner.control.value.Over() ==> Open(s.runner, s.runner.turnId.value);
  }

  /** A turn begins with what was kept for it and leaves the queue: its steers are in its
      mailbox, one of each id, and it is cancelled from the start exactly when that was asked
      for or the runner is shutting down. Other turns keep theirs. */
  lemma BeginDoes(r: Runner, t: Id)
    ensures var r' := r.Begin(t);
            && r'.turnId == Some(t) && r'.control.Some? && !r'.control.value.finished
            && (r'.control.value.cancelled <==> t in r.pendingCancels || r.shut)
            && r'.control.value.mail.items ==
               (if r'.control.value.cancelled then []
                else Dedup(if t in r.pendingSteers then r.pendingSteers[t] else []))
            && r'.queued == r.queued - {t} && r'.pendingSteers == r.pendingSteers - {t}
            && r'.pendingCancels == r.pendingCancels - {t} && r'.shut == r.shut
  {
    BeginInv(r.Pending(t));
    hide SteerAll, Dedup, Ids;
    var items := SteerAll(FRESH, r.Pending(t)).mail.items;
    assert [] + [] + items == items;
  }

  // ---------------------------------------------------------------- turns left alone

  function Appends(n: nat): (r: seq<Action>) {
    if n == 0 then [] else Appends(n - 1) + [AppendSteer(false)]
  }

  lemma RunMore(pre: seq<Action>, action: Action)
    ensures Run(pre + [action]) == Step(Run(pre), action)
  {
    assert (pre + [action])[..|pre|] == pre;
  }

  ghost predicate At(s: System, phase: Phase) {
    s.agent.Some? && s.runner.control.Some? && s.agent.value.phase == phase
  }

  /** The open turn is between safe points. */
  ghost predicate Idle(s: System) {
    && At(s, Working) && s.runner.turnId.Some?
    && !s.runner.control.value.cancelled && !s.runner.control.value.finished
  }

  /** `s'` is `s` with the first `n` of the steers in hand appended. */
  ghost predicate HasAppended(s: System, s': System, n: nat) {
    && At(s, Appending) && n <= |s.agent.value.hand|
    && s' == s.(agent := Some(s.agent.value.(hand := s.agent.value.hand[n..],
                                             appended := s.agent.value.appended + s.agent.value.hand[..n])))
  }

  lemma AppendOne(s: System, s': System, n: nat)
    requires HasAppended(s, s', n) && n < |s.agent.value.hand|
    ensures HasAppended(s, Step(s', AppendSteer(false)), n + 1)
  {
    var hand, appended := s.agent.value.hand, s.agent.value.appended;
    assert hand[n..][1..] == hand[n + 1..];
    assert appended + hand[..n] + [hand[n]] == appended + hand[..n + 1];
  }

  /** What the agent holds reaches the session one by one. */
  lemma {:induction false} HandIsAppended(pre: seq<Action>, n: nat)
    requires At(Run(pre), Appending) && n <= |Run(pre).agent.value.hand|
    ensures HasAppended(Run(pre), Run(pre + Appends(n)), n)
  {
    hide Run, Step, HasAppended;
    if n == 0 {
      assert pre + Appends(0) == pre;
      AppendNone(Run(pre));
    } else {
      HandIsAppended(pre, n - 1);
      Associative(pre, Appends(n - 1), [AppendSteer(false)]);
      RunMore(pre + Appends(n - 1), AppendSteer(false));
      AppendOne(Run(pre), Run(pre + Appends(n - 1)), n - 1);
    }
  }

  lemma AppendNone(s: System)
    requires At(s, Appending)
    ensures HasAppended(s, s, 0)
  {
    var a := s.agent.value;
    assert a.hand[0..] == a.hand && a.appended + a.hand[..0] == a.appended;
  }

  /** `s` with what is in the mailbox appended to the session. */
  ghost function Delivered(s: System): (r: System)
    requires Idle(s)
  {
    var c, a := s.runner.control.value, s.agent.value;
    s.(runner := s.runner.(control := Some(c.(mail := c.mail.(items := [])))),
       agent := Some(a.(hand := [], appended := a.appended + c.mail.items)))
  }

  /** A safe point of an open turn at which nobody cancels: everything in the mailbox, if
      there is something, gets into the session behind what was there. */
  lemma SteersReachSession(pre: seq<Action>, finishing: bool)
    requires Idle(Run(pre)) && Run(pre).runner.control.value.mail.items != []
    ensures Run(pre + [if finishing then FinishPoint else DrainPoint, CheckCancelled(false)]
                + Appends(|Run(pre).runner.control.value.mail.items|) + [AppendSteer(false)]) == Delivered(Run(pre))
  {
    var s := Run(pre);
    var n := |s.runner.control.value.mail.items|;
    var point := if finishing then FinishPoint else DrainPoint;
    var held := pre + [point, CheckCancelled(false)];
    hide Run, Appends, HasAppended, Step, Delivered;
    RunMore(pre, point);
    RunMore(pre + [point], CheckCancelled(false));
    assert pre + [point] + [CheckCancelled(false)] == held;
    HeldOne(s, finishing);
    HeldOne(s, true);
    HandIsAppended(held, n);
    RunMore(held + Appends(n), AppendSteer(false));
    HeldDelivered(s, Run(held), Run(held + Appends(n)));
  }

  lemma HeldOne(s: System, finishing: bool)
    requires Idle(s) && s.runner.control.value.mail.items != []
    ensures var c := s.runner.control.value;
            Step(Step(s, if finishing then FinishPoint else DrainPoint), CheckCancelled(false)) ==
            s.(runner := s.runner.(control := Some(c.(mail := c.mail.(items := [])))),
               agent := Some(s.agent.value.(phase := Appending, hand := c.mail.items)))
  {
  }

  lemma HeldDelivered(s: System, held: System, s': System)
    requires Idle(s) && s.runner.control.value.mail.items != []
    requires held == Step(Step(s, FinishPoint), CheckCancelled(false))
    requires HasAppended(held, s', |s.runner.control.value.mail.items|)
    ensures Step(s', AppendSteer(false)) == Delivered(s)
  {
    HeldOne(s, true);
    var hand := s.runner.control.value.mail.items;
    assert hand[|hand|..] == [] && hand[..|hand|] == hand;
  }

  /** What a turn that is left alone does until it has ended. */
  function ToTheEnd(waiting: nat): (r: seq<Action>) {
    (if waiting == 0 then [] else [FinishPoint, CheckCancelled(false)] + Appends(waiting) + [AppendSteer(false)])
    + [FinishPoint, CheckCancelled(false), EndTurn]
  }

  /** `s'` is behind the turn that was open in `s`, which has completed with every
      acknowledged steer in the session. */
  ghost predicate HasCompleted(s: System, s': System) {
    && s.agent.Some? && s.runner.turnId.Some? && s'.runner.turnId.None? && s'.agent.None?
    && (var acks := s.agent.value.acks;
        s'.log == s.log + [Outcome(s.runner.turnId.value, Completed, acks, Dedup(acks), false)])
  }

  /** Whatever happened before, an open turn that is left alone from now on completes. */
  lemma OpenTurnCompletes(pre: seq<Action>)
    requires Idle(Run(pre))
    ensures HasCompleted(Run(pre), Run(pre + ToTheEnd(|Run(pre).runner.control.value.mail.items|)))
  {
    hide Run, HasCompleted, ToTheEnd;
    var n := |Run(pre).runner.control.value.mail.items|;
    ToTheEndIs(n);
    if n == 0 {
      EmptyTurnCompletes(pre);
    } else {
      FullTurnCompletes(pre);
    }
  }

  lemma ToTheEndIs(n: nat)
    ensures n == 0 ==> ToTheEnd(n) == [FinishPoint, CheckCancelled(false), EndTurn]
    ensures n > 0 ==>
              ToTheEnd(n) == [FinishPoint, CheckCancelled(false)] + Appends(n) + [AppendSteer(false)]
                             + [FinishPoint, CheckCancelled(false), EndTurn]
  {
  }

  lemma FullTurnCompletes(pre: seq<Action>)
    requires Idle(Run(pre)) && Run(pre).runner.control.value.mail.items != []
    ensures HasCompleted(Run(pre), Run(pre + ToTheEnd(|Run(pre).runner.control.value.mail.items|)))
  {
    hide Run, HasCompleted, ToTheEnd, Appends;
    var s := Run(pre);
    var n := |s.runner.control.value.mail.items|;
    ToTheEndIs(n);
    SteersReachSession(pre, true);
    var more := [FinishPoint, CheckCancelled(false)] + Appends(n) + [AppendSteer(false)];
    assert pre + [FinishPoint, CheckCancelled(false)] + Appends(n) + [AppendSteer(false)] == pre + more;
    EmptyTurnCompletes(pre + more);
    Associative(pre, more, [FinishPoint, CheckCancelled(false), EndTurn]);
    CompletedBehind(s, Run(pre + ToTheEnd(n)));
  }

  lemma CompletedBehind(s: System, s': System)
    requires Idle(s) && HasCompleted(Delivered(s), s')
    ensures HasCompleted(s, s')
  {
    hide Dedup;
  }

  lemma EmptyTurnCompletes(pre: seq<Action>)
    requires Idle(Run(pre)) && Run(pre).runner.control.value.mail.items == []
    ensures HasCompleted(Run(pre), Run(pre + [FinishPoint, CheckCancelled(false), EndTurn]))
  {
    RunsAreHonest(pre);
    RunMore(pre, FinishPoint);
    RunMore(pre + [FinishPoint], CheckCancelled(false));
    RunMore(pre + [FinishPoint] + [CheckCancelled(false)], EndTurn);
    assert pre + [FinishPoint] + [CheckCancelled(false)] + [EndTurn]
        == pre + [FinishPoint, CheckCancelled(false), EndTurn];
    hide Run, HasCompleted;
    EndsCompleted(Run(pre));
  }

  lemma EndsCompleted(s: System)
    requires Idle(s) && Inv(s) && s.runner.control.value.mail.items == []
    ensures HasCompleted(s, Step(Step(Step(s, FinishPoint), CheckCancelled(false)), EndTurn))
  {
    hide Dedup, Ids, Honest;
    var a := s.agent.value;
    assert a.appended + a.hand + [] == a.appended;
  }

  /** A turn that looks for cancellation after it was cancelled, or when another source asks
      for it, ends as cancelled; one that fails ends as failed. */
  lemma StoppedTurnEnds(pre: seq<Action>, raise: bool)
    requires Run(pre).agent.Some? && Run(pre).runner.turnId.Some? && Run(pre).runner.control.Some?
    ensures var s := Run(pre);
            var a := s.agent.value;
            && ((a.phase.Working? || a.phase.Drained?) && (raise || s.runner.control.value.cancelled) ==>
                  HasEnded(s, Run(pre + [CheckCancelled(raise), EndTurn]), Cancelled))
            && (!a.phase.Ended? ==> HasEnded(s, Run(pre + [Fail, EndTurn]), Failed))
            && (a.phase.Appending? && a.hand != [] ==> HasEnded(s, Run(pre + [AppendSteer(true), EndTurn]), Failed))
  {
    EndsBy(pre, CheckCancelled(raise));
    EndsBy(pre, Fail);
    EndsBy(pre, AppendSteer(true));
    hide Run;
  }

  ghost predicate HasEnded(s: System, s': System, status: Status) {
    && s.agent.Some? && s.runner.turnId.Some? && s'.runner.turnId.None? && s'.agent.None?
    && (var a := s.agent.value;
        s'.log == s.log + [Outcome(s.runner.turnId.value, status, a.acks, a.appended, a.cancelAsked)])
  }

  lemma EndsBy(pre: seq<Action>, action: Action)
    ensures Run(pre + [action, EndTurn]) == Step(Step(Run(pre), action), EndTurn)
  {
    RunMore(pre, action);
    RunMore(pre + [action], EndTurn);
    assert pre + [action] + [EndTurn] == pre + [action, EndTurn];
  }

  // ---------------------------------------------------------------- repetition guard

  /** Length of the block of equal keys at the end. */
  function TailRun(keys: seq<string>): (n: nat)
    ensures n <= |keys| && (keys != [] ==> n > 0)
    decreases |keys|
  {
    if keys == [] then 0
    else if |keys| > 1 && keys[|keys| - 2] == Last(keys) then TailRun(keys[..|keys| - 1]) + 1
    else 1
  }

  /** No block of equal consecutive keys is longer than `limit`. */
  ghost predicate RunsWithin(keys: seq<string>, limit: nat) {
    forall n :: 0 <= n <= |keys| ==> TailRun(keys[..n]) <= limit
  }

  lemma RunSnoc(keys: seq<string>, key: string, limit: nat)
    ensures TailRun(keys + [key]) == if keys != [] && Last(keys) == key then TailRun(keys) + 1 else 1
    ensures RunsWithin(keys + [key], limit) <==> RunsWithin(keys, limit) && TailRun(keys + [key]) <= limit
  {
    var longer := keys + [key];
    assert longer[..|keys|] == keys && longer[..|longer|] == longer;
    assert TailRun(longer) == if keys != [] && Last(keys) == key then TailRun(keys) + 1 else 1;
    hide TailRun;
    forall n | 0 <= n <= |longer| ensures longer[..n] == if n <= |keys| then keys[..n] else longer {
      if n <= |keys| { TakeInFirst(keys, [key], n); }
    }
  }

  lemma RunsWithinPrefix(keys: seq<string>, n: nat, limit: nat)
    requires n <= |keys| && RunsWithin(keys, limit)
    ensures RunsWithin(keys[..n], limit)
  {
    assert forall k :: 0 <= k <= n ==> keys[..n][..k] == keys[..k];
  }

  /** The keys of `n` calls in a row, from the `i`-th on, are the same. */
  ghost predicate SameInARow(keys: seq<string>, i: nat, n: nat) {
    i + n <= |keys| && forall j :: i <= j < i + n ==> keys[j] == keys[i]
  }

  ghost predicate Repeats(keys: seq<string>, n: nat) {
    exists i: nat :: SameInARow(keys, i, n)
  }

  lemma {:induction false} TailRunIs(keys: seq<string>)
    requires keys != []
    ensures var n := TailRun(keys);
            SameInARow(keys, |keys| - n, n) && (n < |keys| ==> keys[|keys| - n - 1] != Last(keys))
    decreases |keys|
  {
    if |keys| > 1 && keys[|keys| - 2] == Last(keys) {
      TailRunIs(keys[..|keys| - 1]);
    }
  }

  /** A history stays within the limit exactly when no more than that many calls in a row
      are the same. */
  lemma RunsWithinMeans(keys: seq<string>, limit: nat)
    ensures RunsWithin(keys, limit) <==> !Repeats(keys, limit + 1)
  {
    if !RunsWithin(keys, limit) {
      var n :| 0 <= n <= |keys| && TailRun(keys[..n]) > limit;
      var r := TailRun(keys[..n]);
      TailRunIs(keys[..n]);
      assert forall j :: n - r <= j < n ==> keys[..n][j] == keys[j];
      assert SameInARow(keys, n - r, limit + 1);
    }
    if Repeats(keys, limit + 1) {
      var i: nat :| SameInARow(keys, i, limit + 1);
      var n := i + limit + 1;
      var r := TailRun(keys[..n]);
      TailRunIs(keys[..n]);
      assert Last(keys[..n]) == keys[i] && forall j :: 0 <= j < n ==> keys[..n][j] == keys[j];
    }
  }

  class RepetitionGuard {
    const limit: nat
    var previous: Option<string>
    var count: nat
    ghost var history: seq<string>

    ghost predicate Valid()
      reads this
    {
      && count == TailRun(history)
      && previous == (if history == [] then None else Some(Last(history)))
      && RunsWithin(history, limit)
    }

    constructor (limit: nat)
      ensures Valid() && history == [] && this.limit == limit
    {
      this.limit, previous, count, history := limit, None, 0, [];
    }

    method Reset()
      modifies this
      ensures Valid() && history == []
    {
      previous, count, history := None, 0, [];
    }

    /** A batch is admitted whole or not at all: exactly when it creates no block of
        identical consecutive calls above the limit, counted across batches. */
    method Check(keys: seq<string>) returns (ok: bool)
      requires Valid()
      modifies this
      ensures Valid()
      ensures ok <==> RunsWithin(old(history) + keys, limit)
      ensures history == if ok then old(history) + keys else old(history)
    {
      hide TailRun, RunsWithin;
      var p, c := previous, count;
      assert history + keys[..0] == history;
      for i := 0 to |keys|
        invariant Valid() && history == old(history)
        invariant c == TailRun(history + keys[..i])
        invariant p == (if history + keys[..i] == [] then None else Some(Last(history + keys[..i])))
        invariant RunsWithin(history + keys[..i], limit)
      {
        ghost var before, now := history + keys[..i], history + keys[..i + 1];
        assert now == before + [keys[i]];
        RunSnoc(before, keys[i], limit);
        c := if p == Some(keys[i]) then c + 1 else 1;
        p := Some(keys[i]);
        if c > limit {
          assert (history + keys)[..|now|] == now;
          assert !RunsWithin(history + keys, limit) by {
            if RunsWithin(history + keys, limit) { RunsWithinPrefix(history + keys, |now|, limit); }
          }
          return false;
        }
      }
      assert keys[..|keys|] == keys;
      previous, count, history := p, c, history + keys;
      return true;
    }
  }
}
