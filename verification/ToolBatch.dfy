/** Execution of one batch of tool calls: what it journals on every path, and what
    the projection then shows of it. Calls are identified by their position in the
    batch. Callbacks, tools and the coordinator may raise at any of their calls; a
    journal write does not raise. An interruption ends the reports of completed calls; it
    does not strike inside the settling of one. */
module ToolBatch {
  import opened Common
  import opened Messages
  import Session
  import Projection

  datatype Fault = AgentCancelled | KeyboardInterrupt | OtherError(text: string)

  datatype ToolResult = ToolResult(error: Option<string>, attachments: seq<string>, presentToUser: bool,
                                   executed: bool, feedback: seq<string>)

  datatype Outcome = Raises(fault: Fault) | Returns(result: ToolResult)

  /** Everything the executor does not decide. `asked(n)` are the interactions that
      running tools record before the executor's n-th item. */
  datatype Env = Env(
    announce: nat -> Option<Fault>,
    run: nat -> Outcome,
    normalizing: nat -> Option<Fault>,
    content: nat -> string,
    reporting: nat -> Option<Fault>,
    showing: bool -> Option<Fault>,
    hooking: nat -> Option<Fault>,
    hookFeedback: nat -> seq<string>,
    media: (bool, seq<string>) -> string,
    joined: seq<string> -> string,
    cleaning: nat -> Option<Fault>,
    now: nat -> Time,
    asked: nat -> seq<Message>)

  /** Tool facts of the journal. */
  datatype Fact = Began(call: nat) | Ended(call: nat, status: Session.ToolStatus)

  function FailureStatus(f: Fault): (s: Session.ToolStatus) {
    match f
    case AgentCancelled => Session.ToolCancelled
    case KeyboardInterrupt => Session.ToolUnknown
    case OtherError(_) => Session.ToolFailed
  }

  /** The terminal status call `i` deserves. */
  function Deserved(env: Env, i: nat): (s: Session.ToolStatus)
    ensures s != Session.ToolStarted
  {
    if env.announce(i).Some? then FailureStatus(env.announce(i).value)
    else
      match env.run(i)
      case Raises(fault) => FailureStatus(fault)
      case Returns(result) => if result.error.Some? then Session.ToolFailed else Session.ToolCompleted
  }

  /** Nothing raises on behalf of call `i`. */
  predicate Smooth(env: Env, i: nat) {
    env.announce(i).None? && env.run(i).Returns? && env.normalizing(i).None? && env.reporting(i).None?
  }

  // ---------------------------------------------------------------- one start, one end

  datatype Phase = Fresh | Open | Closed | Broken

  function After(p: Phase, f: Fact, i: nat): (r: Phase) {
    if f.call != i then p
    else if f.Began? && p == Fresh then Open
    else if f.Ended? && p == Open then Closed
    else Broken
  }

  /** Where call `i` stands after these facts. */
  function PhaseOf(facts: seq<Fact>, i: nat): (p: Phase)
    decreases |facts|
  {
    if facts == [] then Fresh else After(PhaseOf(facts[..|facts| - 1], i), Last(facts), i)
  }

  lemma PhaseStep(facts: seq<Fact>, f: Fact)
    ensures forall i :: PhaseOf(facts + [f], i) == After(PhaseOf(facts, i), f, i)
  {
    assert (facts + [f])[..|facts|] == facts;
  }

  ghost predicate Untouched(facts: seq<Fact>, i: nat) {
    forall k :: 0 <= k < |facts| ==> facts[k].call != i
  }

  ghost predicate BeganAt(facts: seq<Fact>, i: nat, b: nat) {
    b < |facts| && facts[b] == Began(i) && forall k :: 0 <= k < |facts| && k != b ==> facts[k].call != i
  }

  ghost predicate EndedAt(facts: seq<Fact>, i: nat, b: nat, e: nat) {
    && b < e < |facts| && facts[b] == Began(i) && facts[e].Ended? && facts[e].call == i
    && forall k :: 0 <= k < |facts| && k != b && k != e ==> facts[k].call != i
  }

  ghost predicate BeganOnce(facts: seq<Fact>, i: nat) {
    exists b :: BeganAt(facts, i, b)
  }

  /** Exactly one start and, after it, exactly one end. */
  ghost predicate EndedOnce(facts: seq<Fact>, i: nat) {
    exists b, e :: EndedAt(facts, i, b, e)
  }

  lemma {:induction false} PhaseCounts(facts: seq<Fact>, i: nat)
    ensures PhaseOf(facts, i) == Fresh <==> Untouched(facts, i)
    ensures PhaseOf(facts, i) == Open <==> BeganOnce(facts, i)
    ensures PhaseOf(facts, i) == Closed <==> EndedOnce(facts, i)
    decreases |facts|
  {
    if facts != [] {
      var front, f := facts[..|facts| - 1], Last(facts);
      assert facts == front + [f];
      PhaseCounts(front, i);
      UntouchedStep(front, f, i);
      BeganStep(front, f, i);
      EndedStep(front, f, i);
      hide Untouched, BeganOnce, EndedOnce;
    }
  }

  lemma UntouchedStep(front: seq<Fact>, f: Fact, i: nat)
    ensures Untouched(front + [f], i) <==> Untouched(front, i) && f.call != i
  {
    assert (front + [f])[|front|] == f;
    assert forall k :: 0 <= k < |front| ==> (front + [f])[k] == front[k];
  }

  lemma BeganStep(front: seq<Fact>, f: Fact, i: nat)
    ensures BeganOnce(front + [f], i) <==>
            if f.call == i then f.Began? && Untouched(front, i) else BeganOnce(front, i)
  {
    var facts := front + [f];
    assert facts[|front|] == f;
    assert forall k :: 0 <= k < |front| ==> facts[k] == front[k];
    if BeganOnce(facts, i) {
      var b :| BeganAt(facts, i, b);
      assert f.call == i ==> b == |front|;
      assert f.call != i ==> BeganAt(front, i, b);
    }
    if f.call != i && BeganOnce(front, i) {
      var b :| BeganAt(front, i, b);
      assert BeganAt(facts, i, b);
    }
    if f == Began(i) && Untouched(front, i) {
      assert BeganAt(facts, i, |front|);
    }
  }

  lemma EndedStep(front: seq<Fact>, f: Fact, i: nat)
    ensures EndedOnce(front + [f], i) <==>
            if f.call == i then f.Ended? && BeganOnce(front, i) else EndedOnce(front, i)
  {
    var facts := front + [f];
    assert facts[|front|] == f;
    assert forall k :: 0 <= k < |front| ==> facts[k] == front[k];
    if EndedOnce(facts, i) {
      var b, e :| EndedAt(facts, i, b, e);
      assert f.call == i ==> e == |front| && BeganAt(front, i, b);
      assert f.call != i ==> EndedAt(front, i, b, e);
    }
    if f.call != i && EndedOnce(front, i) {
      var b, e :| EndedAt(front, i, b, e);
      assert EndedAt(facts, i, b, e);
    }
    if f.call == i && f.Ended? && BeganOnce(front, i) {
      var b :| BeganAt(front, i, b);
      assert EndedAt(facts, i, b, |front|);
    }
  }

  /** Terminal facts carry the status their call deserves. */
  ghost predicate Deserving(facts: seq<Fact>, env: Env) {
    forall k :: 0 <= k < |facts| && facts[k].Ended? ==> facts[k].status == Deserved(env, facts[k].call)
  }

  // ---------------------------------------------------------------- items of a batch

  /** The journalled result of call `c`. */
  predicate IsResult(m: Message, calls: seq<ToolCall>, env: Env, c: nat)
    requires c < |calls|
  {
    m.role == ToolRole && m.toolCallId == Some(calls[c].id) && m.content == env.content(c) && m.toolCalls == []
    && m.origin == Conversation
  }

  /** Interactions, media, deliveries and hook feedback. */
  predicate Aside(m: Message) {
    m.role == UserRole && m.toolCallId.None? && m.toolCalls == []
    && (m.origin == UserInteraction || m.origin == ToolMedia || m.origin == ToolDelivery || m.origin == HookFeedback)
  }

  predicate Interaction(m: Message) {
    Aside(m) && m.origin == UserInteraction
  }

  ghost predicate OnlyInteractions(env: Env) {
    forall n, k :: 0 <= k < |env.asked(n)| ==> Interaction(env.asked(n)[k])
  }

  /** Items are results of calls in `committed`, each once and none missing, and asides. */
  ghost predicate Recorded(items: seq<Message>, calls: seq<ToolCall>, env: Env, committed: map<nat, nat>) {
    && (forall c :: c in committed ==>
        c < |calls| && committed[c] < |items| && IsResult(items[committed[c]], calls, env, c))
    && (forall k :: 0 <= k < |items| ==> Aside(items[k]) || exists c :: c in committed && committed[c] == k)
  }

  lemma RecordAsides(items: seq<Message>, more: seq<Message>, calls: seq<ToolCall>, env: Env, committed: map<nat, nat>)
    requires Recorded(items, calls, env, committed)
    requires forall k :: 0 <= k < |more| ==> Aside(more[k])
    ensures Recorded(items + more, calls, env, committed)
  {
    hide Aside, IsResult;
  }

  lemma RecordResult(items: seq<Message>, m: Message, calls: seq<ToolCall>, env: Env, committed: map<nat, nat>, c: nat)
    requires Recorded(items, calls, env, committed)
    requires c < |calls| && c !in committed && IsResult(m, calls, env, c)
    ensures Recorded(items + [m], calls, env, committed[c := |items|])
  {
    hide Aside, IsResult;
    var now, committed' := items + [m], committed[c := |items|];
    forall k | 0 <= k < |now| && !Aside(now[k]) ensures exists d :: d in committed' && committed'[d] == k {
      if k == |items| {
        assert committed'[c] == k;
      } else {
        assert now[k] == items[k];
        var d :| d in committed && committed[d] == k;
        assert d in committed' && committed'[d] == k;
      }
    }
  }

  // ---------------------------------------------------------------- projection of a batch

  /** Every item of the batch stays in the unit of its call message. */
  lemma {:induction false} SpanIsWhole(history: seq<Message>, i: nat)
    requires i <= |history|
    requires forall j :: i <= j < |history| ==> Projection.Follows(history[j])
    ensures Projection.SpanEnd(history, i) == |history|
    decreases |history| - i
  {
    if i < |history| { SpanIsWhole(history, i + 1); }
  }

  /** The call message, the committed results in call order, then every aside but
      deliveries, in journal order: nothing of the batch is hidden. */
  ghost predicate Shows(history: seq<Message>, start: nat, calls: seq<ToolCall>, env: Env, committed: map<nat, nat>,
                        messages: seq<nat>)
  {
    && |messages| > |calls|
    && messages[0] == start
    && (forall c :: 0 <= c < |calls| ==>
          c in committed && messages[1 + c] == start + 1 + committed[c] < |history|
          && IsResult(history[start + 1 + committed[c]], calls, env, c))
    && (forall j, k :: |calls| < j < k < |messages| ==> messages[j] < messages[k])
    && (forall j :: start <= j < |history| ==> (j in messages <==> history[j].origin != ToolDelivery))
  }

  /** The projection of a batch whose items came in any completion order. It shows
      messages exactly when no result is missing. */
  lemma BatchProjection(before: seq<Message>, caller: Message, items: seq<Message>, env: Env, committed: map<nat, nat>)
    requires caller.role == AssistantRole && caller.toolCalls != [] && caller.origin != ToolDelivery
    requires DistinctIds(caller.toolCalls)
    requires Recorded(items, caller.toolCalls, env, committed)
    ensures var history, start, calls := before + [caller] + items, |before|, caller.toolCalls;
            var unit := Projection.UnitAt(history, start);
            && unit.end == |history|
            && (unit.Visible() <==> forall c :: 0 <= c < |calls| ==> c in committed)
            && (unit.Visible() ==> Shows(history, start, calls, env, committed, unit.messages))
  {
    var history, start, calls := before + [caller] + items, |before|, caller.toolCalls;
    var lo, hi := start + 1, |history|;
    assert history[start] == caller;
    assert history[lo..] == items;
    BatchFollows(history, lo, items, calls, env, committed);
    SpanIsWhole(history, lo);
    ResultsFound(history, lo, items, calls, env, committed);
    assert Projection.Complete(history, calls, lo, hi) <==> forall c :: 0 <= c < |calls| ==> c in committed;
    if Projection.Complete(history, calls, lo, hi) {
      BatchShown(history, start, items, calls, env, committed);
    }
  }

  lemma BatchFollows(history: seq<Message>, lo: nat, items: seq<Message>, calls: seq<ToolCall>, env: Env,
      committed: map<nat, nat>)
    requires lo <= |history| && history[lo..] == items
    requires Recorded(items, calls, env, committed)
    ensures forall j :: lo <= j < |history| ==> Projection.Follows(history[j])
  {
    forall j | lo <= j < |history| ensures Projection.Follows(history[j]) {
      assert history[j] == items[j - lo];
    }
  }

  lemma BatchShown(history: seq<Message>, start: nat, items: seq<Message>, calls: seq<ToolCall>, env: Env,
      committed: map<nat, nat>)
    requires start < |history| && history[start + 1..] == items && DistinctIds(calls)
    requires Recorded(items, calls, env, committed)
    requires history[start].toolCalls == calls && history[start].origin != ToolDelivery
    requires forall c :: 0 <= c < |calls| ==> c in committed
    requires Projection.Complete(history, calls, start + 1, |history|)
    ensures Shows(history, start, calls, env, committed, Projection.BatchMessages(history, start, |history|))
  {
    hide Recorded, DistinctIds, IsResult, Projection.Results, Projection.Trails, Projection.Answers,
         Projection.Complete;
    var lo, hi := start + 1, |history|;
    var results, trailing := Projection.Results(history, calls, lo, hi), Projection.Trailing(history, calls, lo, hi);
    ResultsAre(history, lo, items, calls, env, committed);
    ShownSet(history, lo, items, calls, env, committed, results);
    Projection.TrailingExact(history, calls, lo, hi);
    hide Projection.Trailing, Shows;
    Assembled(history, start, calls, env, committed, results, trailing);
  }

  lemma CommittedAt(history: seq<Message>, lo: nat, items: seq<Message>, calls: seq<ToolCall>, env: Env,
      committed: map<nat, nat>, c: nat)
    requires lo <= |history| && history[lo..] == items
    requires Recorded(items, calls, env, committed) && c in committed
    ensures c < |calls| && lo + committed[c] < |history| && IsResult(history[lo + committed[c]], calls, env, c)
  {
    hide IsResult, Aside;
    assert history[lo..][committed[c]] == history[lo + committed[c]];
  }

  lemma ResultsAre(history: seq<Message>, lo: nat, items: seq<Message>, calls: seq<ToolCall>, env: Env,
      committed: map<nat, nat>)
    requires lo <= |history| && history[lo..] == items && DistinctIds(calls)
    requires Recorded(items, calls, env, committed)
    requires forall c :: 0 <= c < |calls| ==> c in committed
    requires Projection.Complete(history, calls, lo, |history|)
    ensures var results := Projection.Results(history, calls, lo, |history|);
            forall c :: 0 <= c < |calls| ==>
              results[c] == lo + committed[c] < |history| && IsResult(history[lo + committed[c]], calls, env, c)
  {
    hide DistinctIds, IsResult, Recorded, Projection.Complete, Projection.ResultOf;
    ResultsFound(history, lo, items, calls, env, committed);
    forall c | 0 <= c < |calls|
      ensures lo + committed[c] < |history| && IsResult(history[lo + committed[c]], calls, env, c)
    {
      CommittedAt(history, lo, items, calls, env, committed, c);
    }
  }

  lemma ShownSet(history: seq<Message>, lo: nat, items: seq<Message>, calls: seq<ToolCall>, env: Env,
                 committed: map<nat, nat>, results: seq<nat>)
    requires lo <= |history| && history[lo..] == items
    requires Recorded(items, calls, env, committed)
    requires |results| == |calls|
    requires forall c :: 0 <= c < |calls| ==> c in committed && results[c] == lo + committed[c]
    ensures forall j :: lo <= j < |history| ==>
              (j in results || j in Projection.Trailing(history, calls, lo, |history|) <==>
                history[j].origin != ToolDelivery)
  {
    hide Projection.Trailing, Recorded;
    forall j | lo <= j < |history|
      ensures j in results || j in Projection.Trailing(history, calls, lo, |history|) <==>
              history[j].origin != ToolDelivery
    {
      ShownOrDelivered(history, lo, items, calls, env, committed, results, j);
      TrailingShown(history, lo, items, calls, env, committed, j);
    }
  }

  lemma Assembled(history: seq<Message>, start: nat, calls: seq<ToolCall>, env: Env, committed: map<nat, nat>,
                  results: seq<nat>, trailing: seq<nat>)
    requires start < |history| && history[start].origin != ToolDelivery
    requires |results| == |calls|
    requires forall c :: 0 <= c < |calls| ==>
               c in committed && results[c] == start + 1 + committed[c] < |history|
               && IsResult(history[start + 1 + committed[c]], calls, env, c)
    requires forall j, k :: 0 <= j < k < |trailing| ==> trailing[j] < trailing[k]
    requires forall j :: start + 1 <= j < |history| ==>
             (j in results || j in trailing <==> history[j].origin != ToolDelivery)
    ensures Shows(history, start, calls, env, committed, [start] + results + trailing)
  {
    hide IsResult;
    var messages := [start] + results + trailing;
    assert forall c :: 0 <= c < |results| ==> messages[1 + c] == results[c];
    forall j, k | |calls| < j < k < |messages| ensures messages[j] < messages[k] {
      assert messages[j] == trailing[j - |calls| - 1] && messages[k] == trailing[k - |calls| - 1];
    }
    forall j ensures j in messages <==> j == start || j in results || j in trailing {
    }
  }

  lemma TrailingShown(history: seq<Message>, lo: nat, items: seq<Message>, calls: seq<ToolCall>, env: Env,
                      committed: map<nat, nat>, j: nat)
    requires lo <= j < |history| && history[lo..] == items
    requires Recorded(items, calls, env, committed)
    ensures j in Projection.Trailing(history, calls, lo, |history|)
            <==> history[j].origin != ToolDelivery && history[j].toolCallId.None?
  {
    TrailsAre(history, lo, items, calls, env, committed);
    Projection.TrailingExact(history, calls, lo, |history|);
    hide Recorded, Projection.Trails, Projection.Answers, Projection.Trailing;
  }

  lemma ShownOrDelivered(history: seq<Message>, lo: nat, items: seq<Message>, calls: seq<ToolCall>, env: Env,
                         committed: map<nat, nat>, results: seq<nat>, j: nat)
    requires lo <= |history| && history[lo..] == items
    requires Recorded(items, calls, env, committed)
    requires |results| == |calls|
    requires forall c :: 0 <= c < |calls| ==> c in committed && results[c] == lo + committed[c]
    ensures lo <= j < |history| ==> (j in results <==> history[j].toolCallId.Some?)
    ensures lo <= j < |history| && j in results ==> history[j].origin != ToolDelivery
  {
    if lo <= j < |history| {
      var k := j - lo;
      assert history[j] == items[k];
      if Aside(items[k]) {
        assert forall c :: 0 <= c < |results| ==> IsResult(items[committed[c]], calls, env, c);
      } else {
        var c :| c in committed && committed[c] == k;
        assert results[c] == j;
      }
    }
  }

  ghost predicate DistinctIds(calls: seq<ToolCall>) {
    forall c, d :: 0 <= c < d < |calls| ==> calls[c].id != calls[d].id
  }

  lemma ResultsFound(history: seq<Message>, lo: nat, items: seq<Message>, calls: seq<ToolCall>, env: Env,
      committed: map<nat, nat>)
    requires lo <= |history| && history[lo..] == items
    requires DistinctIds(calls) && Recorded(items, calls, env, committed)
    ensures forall c :: 0 <= c < |calls| ==>
              Projection.ResultOf(history, lo, |history|, calls[c].id)
              == if c in committed then Some(lo + committed[c]) else None
  {
    forall c | 0 <= c < |calls|
      ensures Projection.ResultOf(history, lo, |history|, calls[c].id)
              == if c in committed then Some(lo + committed[c]) else None
    {
      AnswersAre(items, calls, env, committed, c);
      hide Recorded, DistinctIds;
      var r := Projection.ResultOf(history, lo, |history|, calls[c].id);
      assert forall k :: 0 <= k < |items| ==> history[lo + k] == items[k];
      assert c in committed ==> history[lo + committed[c]].toolCallId == Some(calls[c].id);
      assert r.Some? ==> items[r.value - lo].toolCallId == Some(calls[c].id);
    }
  }

  /** Only the committed result of a call carries its id. */
  lemma AnswersAre(items: seq<Message>, calls: seq<ToolCall>, env: Env, committed: map<nat, nat>, c: nat)
    requires DistinctIds(calls) && Recorded(items, calls, env, committed)
    requires c < |calls|
    ensures forall k :: 0 <= k < |items| ==>
            (items[k].toolCallId == Some(calls[c].id) <==> c in committed && committed[c] == k)
    ensures c in committed ==> committed[c] < |items|
  {
    forall k | 0 <= k < |items|
      ensures items[k].toolCallId == Some(calls[c].id) <==> c in committed && committed[c] == k
    {
      if !Aside(items[k]) {
        var d :| d in committed && committed[d] == k;
        assert IsResult(items[k], calls, env, d);
        assert d < c ==> calls[d].id != calls[c].id;
        assert c < d ==> calls[c].id != calls[d].id;
      }
    }
  }

  lemma TrailsAre(history: seq<Message>, lo: nat, items: seq<Message>, calls: seq<ToolCall>, env: Env,
      committed: map<nat, nat>)
    requires lo <= |history| && history[lo..] == items
    requires Recorded(items, calls, env, committed)
    ensures forall j :: lo <= j < |history| ==>
              (Projection.Trails(history[j]) && !Projection.Answers(history[j], calls)
               <==> history[j].origin != ToolDelivery && history[j].toolCallId.None?)
  {
  }

  // ---------------------------------------------------------------- the executor

  /** What raises first on behalf of call `i`. */
  function FaultOf(env: Env, i: nat): (f: Option<Fault>)
    ensures f.None? <==> Smooth(env, i)
  {
    if env.announce(i).Some? then env.announce(i)
    else if env.run(i).Raises? then Some(env.run(i).fault)
    else if env.normalizing(i).Some? then env.normalizing(i)
    else env.reporting(i)
  }

  /** The result of call `i`, once started, reaches the session. */
  predicate Commits(env: Env, i: nat) {
    env.announce(i).None? && env.run(i).Returns? && env.normalizing(i).None?
  }

  /** Call `i` is started: a sequential batch stops at the first fault, a concurrent
      one only at a fault while announcing or submitting. */
  ghost predicate Reached(env: Env, concurrent: bool, i: nat) {
    forall j :: 0 <= j < i ==> if concurrent then env.announce(j).None? else Smooth(env, j)
  }

  lemma FailureDeserved(env: Env, i: nat)
    requires env.announce(i).Some? || env.run(i).Raises?
    ensures FaultOf(env, i).Some? && Deserved(env, i) == FailureStatus(FaultOf(env, i).value)
  {
  }

  lemma NoFacts()
    ensures forall i: nat :: PhaseOf([], i) == Fresh
  {
  }

  /** The whole effect of running the calls. */
  ghost predicate Outcomes(facts: seq<Fact>, committed: map<nat, nat>, n: nat, env: Env, concurrent: bool) {
    && (forall i: nat :: PhaseOf(facts, i) == if i < n && Reached(env, concurrent, i) then Closed else Fresh)
    && (forall i: nat :: i in committed <==> i < n && Reached(env, concurrent, i) && Commits(env, i))
  }

  ghost predicate Kept(env: Env, normalized: map<nat, string>, committed: map<nat, nat>,
                       completed: map<nat, ToolResult>)
  {
    && (forall c :: c in normalized ==> c in committed && normalized[c] == env.content(c))
    && (forall c :: c in committed ==> c in completed)
    && (forall c :: c in completed ==> env.run(c) == Returns(completed[c]))
  }

  /** The completed calls, each once. */
  ghost predicate FinishedAre(finished: seq<nat>, completed: map<nat, ToolResult>) {
    Distinct(finished) && forall c :: c in finished <==> c in completed
  }

  lemma FinishedGrows(finished: seq<nat>, completed: map<nat, ToolResult>, c: nat, result: ToolResult)
    requires FinishedAre(finished, completed)
    ensures FinishedAre(if c in completed then finished else finished + [c], completed[c := result])
  {
  }

  /** How many results are cleaned up in this order before a cleanup raises. */
  function CleanedBefore(env: Env, order: seq<nat>): (n: nat)
    ensures n <= |order|
    ensures forall k :: 0 <= k < n ==> env.cleaning(order[k]).None?
    ensures n < |order| ==> env.cleaning(order[n]).Some?
    decreases |order|
  {
    if order == [] then 0
    else
      var n := CleanedBefore(env, order[..|order| - 1]);
      if n == |order| - 1 && env.cleaning(Last(order)).None? then |order| else n
  }

  lemma KeptCompletes(env: Env, normalized: map<nat, string>, committed: map<nat, nat>, completed: map<nat, ToolResult>,
                      c: nat, result: ToolResult)
    requires Kept(env, normalized, committed, completed) && env.run(c) == Returns(result)
    ensures Kept(env, normalized, committed, completed[c := result])
  {
  }

  lemma KeptCommits(env: Env, normalized: map<nat, string>, committed: map<nat, nat>, completed: map<nat, ToolResult>,
                    c: nat, at: nat)
    requires Kept(env, normalized, committed, completed) && c in completed
    ensures Kept(env, normalized, committed[c := at], completed)
    ensures Kept(env, normalized[c := env.content(c)], committed[c := at], completed)
  {
  }

  /** What holds while the first `index` calls of a sequential batch have been run; `active`
      when the last of them still lacks its end, `ok` when nothing has raised. */
  ghost predicate RanSets(env: Env, facts: seq<Fact>, committed: set<nat>, completed: set<nat>, normalized: set<nat>,
                          index: nat, active: bool, ok: bool)
  {
    && (forall i: nat :: PhaseOf(facts, i) ==
          if i >= index then Fresh else if active && i == index - 1 then Open else Closed)
    && (forall i: nat :: i in committed <==> i < index && Commits(env, i))
    && (ok ==> forall i :: 0 <= i < index ==> i in completed && i in normalized)
  }

  lemma RanNothing(env: Env, completed: set<nat>, normalized: set<nat>)
    ensures RanSets(env, [], {}, completed, normalized, 0, false, true)
  {
  }

  lemma RanPhase(env: Env, facts: seq<Fact>, committed: set<nat>, completed: set<nat>, normalized: set<nat>, index: nat)
    requires RanSets(env, facts, committed, completed, normalized, index, false, true)
    ensures PhaseOf(facts, index) == Fresh && index !in committed
  {
    hide PhaseOf;
  }

  lemma RanNext(env: Env, facts: seq<Fact>, facts': seq<Fact>, committed: set<nat>, completed: set<nat>,
                normalized: set<nat>, index: nat, active: bool)
    requires RanSets(env, facts, committed, completed, normalized, index, false, true)
    requires PhaseOf(facts', index) == if active then Open else Closed
    requires forall i: nat :: i != index ==> PhaseOf(facts', i) == PhaseOf(facts, i)
    requires Smooth(env, index) ==> !active
    ensures var ok := FaultOf(env, index).None?;
            RanSets(env, facts', committed + if Commits(env, index) then {index} else {},
                    completed + if active then {} else {index}, normalized + if ok then {index} else {},
                    index + 1, active, ok)
  {
    hide PhaseOf, Commits;
  }

  /** Once the open call, if any, has its end. */
  lemma RanAll(env: Env, facts: seq<Fact>, facts': seq<Fact>, committed: set<nat>, completed: set<nat>,
               normalized: set<nat>, index: nat, active: bool, ok: bool)
    requires RanSets(env, facts, committed, completed, normalized, index, active, ok) && (active ==> index > 0)
    requires if active then facts' != [] && facts' == facts + [Last(facts')] && Last(facts').Ended?
                            && Last(facts').call == index - 1
             else facts' == facts
    ensures forall i: nat :: PhaseOf(facts', i) == if i >= index then Fresh else Closed
    ensures forall i: nat :: i in committed <==> i < index && Commits(env, i)
    ensures ok ==> forall i :: 0 <= i < index ==> i in completed && i in normalized
  {
    if active { PhaseStep(facts, Last(facts')); }
    hide PhaseOf, Commits;
  }

  ghost predicate SettledSets(env: Env, n: nat, facts: seq<Fact>, committed: set<nat>, completed: set<nat>,
                              normalized: set<nat>, submitted: nat, observed: set<nat>)
  {
    && (forall i :: i in observed ==> i < submitted)
    && (forall i: nat :: PhaseOf(facts, i) ==
          if i < submitted && i !in observed then Open
          else if i < submitted || i == submitted < n then Closed else Fresh)
    && (forall i: nat :: i in committed <==> i in observed && Commits(env, i))
    && (forall i: nat :: i in observed && Smooth(env, i) ==> i in completed && i in normalized)
  }

  lemma SettledPhase(env: Env, n: nat, facts: seq<Fact>, committed: set<nat>, completed: set<nat>,
                     normalized: set<nat>, submitted: nat, observed: set<nat>, index: nat)
    requires SettledSets(env, n, facts, committed, completed, normalized, submitted, observed)
    requires index < submitted && index !in observed
    ensures PhaseOf(facts, index) == Open && index !in committed
  {
    hide PhaseOf;
  }

  lemma SettleStep(env: Env, n: nat, facts: seq<Fact>, facts': seq<Fact>, committed: set<nat>, completed: set<nat>,
                   normalized: set<nat>, submitted: nat, observed: set<nat>, index: nat)
    requires SettledSets(env, n, facts, committed, completed, normalized, submitted, observed)
    requires index < submitted && index !in observed
    requires PhaseOf(facts', index) == Closed
    requires forall i: nat :: i != index ==> PhaseOf(facts', i) == PhaseOf(facts, i)
    ensures SettledSets(env, n, facts', committed + if Commits(env, index) then {index} else {},
                        completed + if env.run(index).Returns? then {index} else {},
                        normalized + if Smooth(env, index) then {index} else {}, submitted, observed + {index})
  {
    hide PhaseOf;
  }

  class Batch {
    const calls: seq<ToolCall>
    const env: Env
    var facts: seq<Fact>
    var items: seq<Message>
    var completed: map<nat, ToolResult>
    var normalized: map<nat, string>
    /** The keys of `completed` in the order of completion. */
    var finished: seq<nat>
    var cleaned: set<nat>
    ghost var committed: map<nat, nat>

    ghost predicate Valid()
      reads this
    {
      && OnlyInteractions(env)
      && Recorded(items, calls, env, committed)
      && Deserving(facts, env)
      && Kept(env, normalized, committed, completed)
      && FinishedAre(finished, completed)
    }

    constructor (calls: seq<ToolCall>, env: Env)
      requires OnlyInteractions(env)
      ensures this.calls == calls && this.env == env
      ensures Valid() && facts == [] && items == [] && completed == map[] && cleaned == {} && committed == map[]
      ensures finished == []
    {
      this.calls, this.env := calls, env;
      facts, items, completed, finished := [], [], map[], [];
      normalized, cleaned, committed := map[], {}, map[];
    }

    method Journal(f: Fact)
      requires Valid() && (f.Ended? ==> f.status == Deserved(env, f.call))
      modifies this`facts
      ensures Valid() && facts == old(facts) + [f]
      ensures forall i :: PhaseOf(facts, i) == After(PhaseOf(old(facts), i), f, i)
    {
      PhaseStep(facts, f);
      hide PhaseOf, Recorded;
      facts := facts + [f];
    }

    /** Interactions of running tools may come in front of any item. */
    method Interact()
      requires Valid()
      modifies this`items
      ensures Valid() && items == old(items) + env.asked(|old(items)|)
    {
      RecordAsides(items, env.asked(|items|), calls, env, committed);
      hide Recorded;
      items := items + env.asked(|items|);
    }

    method AddAside(content: string, timestamp: Option<Time>, origin: Origin)
      requires Valid() && (origin == ToolMedia || origin == ToolDelivery || origin == HookFeedback)
      modifies this`items
      ensures Valid()
      ensures items == old(items) + [Message(UserRole, content, timestamp, [], None, origin)]
    {
      var m := Message(UserRole, content, timestamp, [], None, origin);
      RecordAsides(items, [m], calls, env, committed);
      hide Recorded;
      items := items + [m];
    }

    method CommitNormalizedResult(c: nat) returns (error: Option<Fault>)
      requires Valid() && c < |calls| && c !in committed && c in completed
      modifies this`items, this`normalized, this`committed
      ensures Valid()
      ensures error == if env.normalizing(c).Some? then env.normalizing(c) else env.reporting(c)
      ensures committed.Keys == old(committed).Keys + if env.normalizing(c).None? then {c} else {}
      ensures normalized.Keys == old(normalized).Keys + if error.None? then {c} else {}
    {
      hide Recorded, OnlyInteractions, Deserving, PhaseOf, Kept, FinishedAre;
      if env.normalizing(c).Some? {
        return env.normalizing(c);
      }
      Interact();
      var m := Message(ToolRole, env.content(c), Some(env.now(|items|)), [], Some(calls[c].id), Conversation);
      RecordResult(items, m, calls, env, committed, c);
      KeptCommits(env, normalized, committed, completed, c, |items|);
      committed := committed[c := |items|];
      items := items + [m];
      error := env.reporting(c);
      if error.None? {
        normalized := normalized[c := env.content(c)];
      }
    }

    /** The body of the sequential loop; `active` tells whether the call still lacks
        its terminal fact when an error leaves the loop. */
    method RunCall(index: nat) returns (active: bool, error: Option<Fault>)
      requires Valid() && index < |calls| && index !in committed
      requires PhaseOf(facts, index) == Fresh
      modifies this`facts, this`items, this`completed, this`finished, this`normalized, this`committed
      ensures Valid()
      ensures error == FaultOf(env, index)
      ensures active <==> env.announce(index).Some? || env.run(index).Raises?
      ensures PhaseOf(facts, index) == if active then Open else Closed
      ensures forall i: nat :: i != index ==> PhaseOf(facts, i) == PhaseOf(old(facts), i)
      ensures committed.Keys == old(committed).Keys + if Commits(env, index) then {index} else {}
      ensures completed.Keys == old(completed).Keys + if active then {} else {index}
      ensures normalized.Keys == old(normalized).Keys + if error.None? then {index} else {}
    {
      hide Recorded, PhaseOf, OnlyInteractions, Deserving, Kept, FinishedAre;
      active := true;
      Journal(Began(index));
      if env.announce(index).Some? {
        return true, env.announce(index);
      }
      match env.run(index) {
        case Raises(fault) =>
          return true, Some(fault);
        case Returns(result) =>
          KeptCompletes(env, normalized, committed, completed, index, result);
          FinishedGrows(finished, completed, index, result);
          finished := if index in completed then finished else finished + [index];
          completed := completed[index := result];
          Journal(Ended(index, if result.error.Some? then Session.ToolFailed else Session.ToolCompleted));
          active := false;
          error := CommitNormalizedResult(index);
      }
    }

    method ExecuteSequentially() returns (error: Option<Fault>)
      requires Valid() && facts == [] && committed == map[] && completed == map[]
      modifies this`facts, this`items, this`completed, this`finished, this`normalized, this`committed
      ensures Valid() && Outcomes(facts, committed, |calls|, env, false)
      ensures error.None? <==> forall i :: 0 <= i < |calls| ==> Smooth(env, i)
      ensures error.Some? ==> exists i :: 0 <= i < |calls| && Reached(env, false, i) && error == FaultOf(env, i)
      ensures error.None? ==> forall i :: 0 <= i < |calls| ==> i in completed && i in normalized
    {
      hide Valid, PhaseOf, Outcomes, Reached, Deserved, FailureStatus, FaultOf, Commits, Smooth;
      error := None;
      var active, index := false, 0;
      RanNothing(env, completed.Keys, normalized.Keys);
      assert committed.Keys == {};
      hide RanSets;
      while index < |calls| && error.None?
        invariant 0 <= index <= |calls| && Valid()
        invariant active ==> error.Some?
        invariant error.Some? ==> index > 0
        invariant forall j :: 0 <= j < index - 1 ==> Smooth(env, j)
        invariant index > 0 ==> error == FaultOf(env, index - 1)
        invariant active ==> Deserved(env, index - 1) == FailureStatus(error.value)
        invariant RanSets(env, facts, committed.Keys, completed.Keys, normalized.Keys, index, active, error.None?)
      {
        RanPhase(env, facts, committed.Keys, completed.Keys, normalized.Keys, index);
        ghost var facts0, sets := facts, (committed.Keys, completed.Keys, normalized.Keys);
        active, error := RunCall(index);
        if active { FailureDeserved(env, index); }
        RanNext(env, facts0, facts, sets.0, sets.1, sets.2, index, active);
        index := index + 1;
      }
      ghost var facts0 := facts;
      if active {
        Journal(Ended(index - 1, FailureStatus(error.value)));
      }
      RanAll(env, facts0, facts, committed.Keys, completed.Keys, normalized.Keys, index, active, error.None?);
      SequentialOutcomes(facts, committed, |calls|, env, index);
    }

    /** What holds while `observed` of the submitted calls have been settled. */
    ghost predicate Settling(submitted: nat, observed: set<nat>)
      reads this
      requires submitted <= |calls|
    {
      SettledSets(env, |calls|, facts, committed.Keys, completed.Keys, normalized.Keys, submitted, observed)
    }

    /** Start and submit calls in model order, up to the first call whose
        announcement or submission raises. */
    method SubmitCalls() returns (submitted: nat, error: Option<Fault>)
      requires Valid() && facts == [] && committed == map[]
      modifies this`facts
      ensures Valid() && submitted <= |calls| && Settling(submitted, {})
      ensures forall i :: 0 <= i < submitted ==> env.announce(i).None?
      ensures submitted < |calls| ==> error == env.announce(submitted) && error.Some?
      ensures submitted == |calls| ==> error.None?
    {
      hide Valid, PhaseOf, Deserved, FailureStatus;
      NoFacts();
      error, submitted := None, 0;
      while submitted < |calls|
        invariant submitted <= |calls| && Valid()
        invariant forall i :: 0 <= i < submitted ==> env.announce(i).None?
        invariant forall i: nat :: PhaseOf(facts, i) == if i < submitted then Open else Fresh
      {
        Journal(Began(submitted));
        if env.announce(submitted).Some? {
          FailureDeserved(env, submitted);
          Journal(Ended(submitted, FailureStatus(env.announce(submitted).value)));
          return submitted, env.announce(submitted);
        }
        submitted := submitted + 1;
      }
    }

    /** Take the outcome of a submitted call. */
    method Settle(index: nat, firstError: Option<Fault>) returns (error: Option<Fault>)
      requires Valid() && index < |calls| && index !in committed
      requires PhaseOf(facts, index) == Open && env.announce(index).None?
      modifies this`facts, this`items, this`completed, this`finished, this`normalized, this`committed
      ensures Valid()
      ensures error == if firstError.None? then FaultOf(env, index) else firstError
      ensures PhaseOf(facts, index) == Closed
      ensures forall i: nat :: i != index ==> PhaseOf(facts, i) == PhaseOf(old(facts), i)
      ensures committed.Keys == old(committed).Keys + if Commits(env, index) then {index} else {}
      ensures completed.Keys == old(completed).Keys + if env.run(index).Returns? then {index} else {}
      ensures normalized.Keys == old(normalized).Keys + if Smooth(env, index) then {index} else {}
    {
      hide Recorded, PhaseOf, OnlyInteractions, Deserving, Kept, FinishedAre;
      error := firstError;
      match env.run(index) {
        case Raises(fault) =>
          Journal(Ended(index, FailureStatus(fault)));
          if error.None? {
            error := Some(fault);
          }
        case Returns(result) =>
          KeptCompletes(env, normalized, committed, completed, index, result);
          FinishedGrows(finished, completed, index, result);
          finished := if index in completed then finished else finished + [index];
          completed := completed[index := result];
          Journal(Ended(index, if result.error.Some? then Session.ToolFailed else Session.ToolCompleted));
          var raised := CommitNormalizedResult(index);
          if error.None? {
            error := raised;
          }
      }
    }

    method SettleOne(submitted: nat, index: nat, observed: set<nat>, firstError: Option<Fault>)
      returns (seen: set<nat>, error: Option<Fault>)
      requires Valid() && submitted <= |calls| && Settling(submitted, observed)
      requires index < submitted && index !in observed && env.announce(index).None?
      modifies this`facts, this`items, this`completed, this`finished, this`normalized, this`committed
      ensures Valid() && seen == observed + {index} && Settling(submitted, seen)
      ensures error == if firstError.None? then FaultOf(env, index) else firstError
    {
      hide Valid, PhaseOf, FaultOf, Commits, Smooth, SettledSets;
      seen := observed + {index};
      SettledPhase(env, |calls|, facts, committed.Keys, completed.Keys, normalized.Keys, submitted, observed, index);
      error := Settle(index, firstError);
      SettleStep(env, |calls|, old(facts), facts, old(committed.Keys), old(completed.Keys), old(normalized.Keys),
                 submitted, observed, index);
    }

    /** `yielded` are the calls in the order in which as_completed reports them; an
        interruption of the coordinator ends the reports early. */
    method ExecuteConcurrently(yielded: seq<nat>, interruption: Option<Fault>) returns (error: Option<Fault>)
      requires Valid() && facts == [] && committed == map[] && completed == map[]
      requires Distinct(yielded)
      requires forall k :: 0 <= k < |yielded| ==> yielded[k] < |calls| && Reached(env, true, yielded[k] + 1)
      requires interruption.None? ==> forall i :: 0 <= i < |calls| && Reached(env, true, i + 1) ==> i in yielded
      modifies this`facts, this`items, this`completed, this`finished, this`normalized, this`committed
      ensures Valid() && Outcomes(facts, committed, |calls|, env, true)
      ensures error.None? <==> interruption.None? && forall i :: 0 <= i < |calls| ==> Smooth(env, i)
      ensures error.Some? ==>
                || error == interruption
                || exists i :: 0 <= i < |calls| && Reached(env, true, i) && error == FaultOf(env, i)
      ensures error.None? ==> forall i :: 0 <= i < |calls| ==> i in completed && i in normalized
    {
      hide Valid, PhaseOf, Outcomes, Commits, Settling, Explained;
      var submitted: nat;
      submitted, error := SubmitCalls();
      SubmissionExplained(env, |calls|, submitted, interruption, error);
      var observed: set<nat> := {};
      var k := 0;
      while k < |yielded|
        invariant Valid() && 0 <= k <= |yielded| && Settling(submitted, observed)
        invariant forall i :: i in observed ==> exists j :: 0 <= j < k && yielded[j] == i
        invariant Explained(env, |calls|, submitted, observed, interruption, error)
      {
        SettleExplained(env, |calls|, submitted, observed, interruption, error, yielded[k]);
        observed, error := SettleOne(submitted, yielded[k], observed, error);
        k := k + 1;
      }
      InterruptionExplained(env, |calls|, submitted, observed, interruption, error);
      if error.None? {
        error := interruption;
      }
      for index := 0 to submitted
        invariant Valid() && Settling(submitted, observed)
        invariant forall i :: 0 <= i < index ==> i in observed
        invariant Explained(env, |calls|, submitted, observed, interruption, error)
        invariant interruption.Some? ==> error.Some?
      {
        if index !in observed {
          SettleExplained(env, |calls|, submitted, observed, interruption, error, index);
          observed, error := SettleOne(submitted, index, observed, error);
        }
      }
      ConcurrentOutcomes(submitted, observed, interruption, error);
    }

    lemma ConcurrentOutcomes(submitted: nat, observed: set<nat>, interruption: Option<Fault>, error: Option<Fault>)
      requires submitted <= |calls| && Settling(submitted, observed)
      requires forall i :: 0 <= i < submitted ==> i in observed && env.announce(i).None?
      requires submitted < |calls| ==> env.announce(submitted).Some?
      requires Explained(env, |calls|, submitted, observed, interruption, error)
      requires interruption.Some? ==> error.Some?
      ensures Outcomes(facts, committed, |calls|, env, true)
      ensures error.None? <==> interruption.None? && forall i :: 0 <= i < |calls| ==> Smooth(env, i)
      ensures error.Some? ==>
                || error == interruption
                || exists i :: 0 <= i < |calls| && Reached(env, true, i) && error == FaultOf(env, i)
      ensures error.None? ==> forall i :: 0 <= i < |calls| ==> i in completed && i in normalized
    {
      hide PhaseOf;
      assert forall i: nat :: i < |calls| && Reached(env, true, i) ==> i <= submitted;
    }

    /** Media for the model, then deliveries for the user, after all results. */
    method CommitMedia(results: seq<ToolResult>) returns (error: Option<Fault>)
      requires Valid()
      modifies this`items
      ensures Valid() && old(items) <= items
      ensures error == MediaFault(env, results)
      ensures error.None? ==> items == old(items) + MediaItems(env, |old(items)|, results)
    {
      hide Valid;
      for pass := 0 to 2
        invariant Valid() && old(items) <= items
        invariant pass == 0 ==> items == old(items)
        invariant pass == 1 ==> items == old(items) + Presented(env, |old(items)|, results, false)
        invariant pass > 0 ==> (Attachments(results, false) == [] || env.showing(false).None?)
        invariant pass > 1 ==> items == old(items) + MediaItems(env, |old(items)|, results)
                               && (Attachments(results, true) == [] || env.showing(true).None?)
      {
        var toUser := pass == 1;
        var attachments := Attachments(results, toUser);
        if attachments != [] {
          AddAside(env.media(toUser, attachments), Some(env.now(|items|)), if toUser then ToolDelivery else ToolMedia);
          if env.showing(toUser).Some? {
            return env.showing(toUser);
          }
        }
      }
      error := None;
    }

    /** Post-tool hooks in call order; their feedback becomes one item. */
    method CommitFeedback() returns (error: Option<Fault>)
      requires Valid()
      requires Filled(completed, |calls|)
      modifies this`items
      ensures Valid()
      ensures error == HookFault(env, completed, |calls|)
      ensures error.None? ==> items == old(items) + FeedbackItems(env, completed, |calls|)
      ensures error.Some? ==> items == old(items)
    {
      hide Valid;
      var feedback := [];
      for index := 0 to |calls|
        invariant Valid() && items == old(items)
        invariant feedback == Feedback(env, completed, index)
        invariant HookFault(env, completed, index).None?
      {
        feedback := feedback + completed[index].feedback;
        if completed[index].executed {
          if env.hooking(index).Some? {
            HookFaultStops(env, completed, index + 1, |calls|);
            return env.hooking(index);
          }
          feedback := feedback + env.hookFeedback(index);
        }
      }
      error := None;
      if feedback != [] {
        AddAside(env.joined(feedback), None, HookFeedback);
      }
    }

    /** Media, deliveries and feedback behind the results of calls that all went well. */
    method Conclude() returns (error: Option<Fault>)
      requires Valid() && Filled(completed, |calls|)
      modifies this`items
      ensures Valid() && old(items) <= items
      ensures error == if MediaFault(env, InOrder(completed, |calls|)).Some?
              then MediaFault(env, InOrder(completed, |calls|))
                       else HookFault(env, completed, |calls|)
      ensures error.None? ==>
                items == old(items) + MediaItems(env, |old(items)|, InOrder(completed, |calls|))
                         + FeedbackItems(env, completed, |calls|)
    {
      hide Valid, MediaFault, HookFault, MediaItems, FeedbackItems;
      error := CommitMedia(InOrder(completed, |calls|));
      if error.None? {
        error := CommitFeedback();
      }
    }

    /** Nothing raises while the batch runs, concludes and cleans up. */
    ghost predicate GoesWell(concurrent: bool, interruption: Option<Fault>)
      reads this
    {
      && (concurrent ==> interruption.None?)
      && (forall i :: 0 <= i < |calls| ==> Smooth(env, i))
      && Filled(completed, |calls|)
      && MediaFault(env, InOrder(completed, |calls|)).None?
      && HookFault(env, completed, |calls|).None?
      && (forall c :: c in completed ==> env.cleaning(c).None?)
    }

    /** The whole batch; `ran` is how many items there were once the calls had been run. */
    method Execute(allConcurrent: bool, yielded: seq<nat>, interruption: Option<Fault>)
      returns (error: Option<Fault>, ghost ran: nat)
      requires Valid() && facts == [] && committed == map[] && completed == map[] && cleaned == {}
      requires Distinct(yielded)
      requires forall k :: 0 <= k < |yielded| ==> yielded[k] < |calls| && Reached(env, true, yielded[k] + 1)
      requires interruption.None? ==> forall i :: 0 <= i < |calls| && Reached(env, true, i + 1) ==> i in yielded
      modifies this
      ensures Valid() && ran <= |items|
      ensures Outcomes(facts, committed, |calls|, env, |calls| > 1 && allConcurrent)
      ensures error.None? <==> GoesWell(|calls| > 1 && allConcurrent, interruption)
      ensures error.None? ==>
                items == items[..ran] + MediaItems(env, ran, InOrder(completed, |calls|))
                         + FeedbackItems(env, completed, |calls|)
      ensures FinishedAre(finished, completed) && CleansUp(finished, error)
      ensures cleaned == completed.Keys <==> forall c :: c in completed ==> env.cleaning(c).None?
    {
      hide Valid, Outcomes, Reached, Smooth, FinishedAre, CleanedBefore, MediaFault, HookFault, MediaItems,
           FeedbackItems, InOrder;
      var concurrent := |calls| > 1 && allConcurrent;
      if concurrent {
        error := ExecuteConcurrently(yielded, interruption);
      } else {
        error := ExecuteSequentially();
      }
      ran := |items|;
      ghost var before := items;
      if error.None? {
        error := Conclude();
        assert items[..ran] == before;
      }
      var raised := Cleanup();
      CleanedAll(env, finished, completed, cleaned);
      if raised.Some? {
        error := raised;
      }
    }

    /** Results are cleaned up in order of completion; a cleanup that raises keeps the later
        ones from it, and what it raises is the error of the batch. */
    ghost predicate CleansUp(order: seq<nat>, error: Option<Fault>)
      reads this
    {
      var n := CleanedBefore(env, order);
      && (forall c :: c in cleaned <==> c in order[..n])
      && (n < |order| ==> error == env.cleaning(order[n]))
    }

    method Cleanup() returns (raised: Option<Fault>)
      requires Valid() && cleaned == {}
      modifies this`cleaned
      ensures Valid() && FinishedAre(finished, completed) && CleansUp(finished, raised)
      ensures raised.None? <==> CleanedBefore(env, finished) == |finished|
    {
      hide Recorded, OnlyInteractions, Deserving, Kept, FinishedAre;
      for i := 0 to |finished|
        invariant forall c :: c in cleaned <==> c in finished[..i]
        invariant CleanedBefore(env, finished[..i]) == i
      {
        assert finished[..i + 1][..i] == finished[..i] && Last(finished[..i + 1]) == finished[i];
        raised := env.cleaning(finished[i]);
        if raised.Some? {
          CleanedStops(env, finished, i);
          return;
        }
        cleaned := cleaned + {finished[i]};
      }
      assert finished[..|finished|] == finished;
      raised := None;
    }
  }

  lemma CleanedStops(env: Env, order: seq<nat>, i: nat)
    requires i < |order| && CleanedBefore(env, order[..i]) == i && env.cleaning(order[i]).Some?
    ensures CleanedBefore(env, order) == i
  {
    assert forall k :: 0 <= k < i ==> order[..i][k] == order[k];
  }

  /** Every completed result is cleaned up exactly when no cleanup raises. */
  lemma CleanedAll(env: Env, order: seq<nat>, completed: map<nat, ToolResult>, cleaned: set<nat>)
    requires FinishedAre(order, completed)
    requires forall c :: c in cleaned <==> c in order[..CleanedBefore(env, order)]
    ensures cleaned == completed.Keys <==> forall c :: c in completed ==> env.cleaning(c).None?
    ensures CleanedBefore(env, order) == |order| <==> forall c :: c in completed ==> env.cleaning(c).None?
  {
    var n := CleanedBefore(env, order);
    if n < |order| {
      assert order[n] in completed;
      assert order[n] !in order[..n];
    } else {
      assert order[..n] == order;
    }
  }

  /** Attachments of the results that are, or are not, presented to the user. */
  function Attachments(results: seq<ToolResult>, toUser: bool): (r: seq<string>) {
    if results == [] then []
    else (if results[0].presentToUser == toUser then results[0].attachments else []) + Attachments(results[1..], toUser)
  }

  function Presented(env: Env, n: nat, results: seq<ToolResult>, toUser: bool): (r: seq<Message>) {
    var attachments := Attachments(results, toUser);
    if attachments == [] then []
    else [Message(UserRole, env.media(toUser, attachments), Some(env.now(n)), [], None,
                  if toUser then ToolDelivery else ToolMedia)]
  }

  function MediaItems(env: Env, n: nat, results: seq<ToolResult>): (r: seq<Message>) {
    var media := Presented(env, n, results, false);
    media + Presented(env, n + |media|, results, true)
  }

  function MediaFault(env: Env, results: seq<ToolResult>): (f: Option<Fault>) {
    if Attachments(results, false) != [] && env.showing(false).Some? then env.showing(false)
    else if Attachments(results, true) != [] then env.showing(true)
    else None
  }

  predicate Filled(completed: map<nat, ToolResult>, n: nat) {
    forall i :: 0 <= i < n ==> i in completed
  }

  /** The results in call order. */
  function InOrder(completed: map<nat, ToolResult>, n: nat): (r: seq<ToolResult>)
    requires Filled(completed, n)
    ensures |r| == n && forall i :: 0 <= i < n ==> r[i] == completed[i]
  {
    seq(n, i requires 0 <= i < n => completed[i])
  }

  function Feedback(env: Env, completed: map<nat, ToolResult>, n: nat): (r: seq<string>)
    requires Filled(completed, n)
  {
    if n == 0 then []
    else
      Feedback(env, completed, n - 1) + completed[n - 1].feedback
      + if completed[n - 1].executed then env.hookFeedback(n - 1) else []
  }

  function FeedbackItems(env: Env, completed: map<nat, ToolResult>, n: nat): (r: seq<Message>)
    requires Filled(completed, n)
  {
    var feedback := Feedback(env, completed, n);
    if feedback == [] then [] else [Message(UserRole, env.joined(feedback), None, [], None, HookFeedback)]
  }

  function HookFault(env: Env, completed: map<nat, ToolResult>, n: nat): (f: Option<Fault>)
    requires Filled(completed, n)
  {
    if n == 0 then None
    else
      var f := HookFault(env, completed, n - 1);
      if f.Some? then f else if completed[n - 1].executed then env.hooking(n - 1) else None
  }

  lemma {:induction false} HookFaultStops(env: Env, completed: map<nat, ToolResult>, k: nat, n: nat)
    requires k <= n && Filled(completed, n)
    requires HookFault(env, completed, k).Some?
    ensures HookFault(env, completed, n) == HookFault(env, completed, k)
  {
    if k < n { HookFaultStops(env, completed, k, n - 1); }
  }

  /** A recorded error has a cause; without one, everything so far went well. */
  ghost predicate Explained(env: Env, n: nat, submitted: nat, observed: set<nat>, interruption: Option<Fault>,
      error: Option<Fault>) {
    && (error.None? ==> submitted == n && forall i :: i in observed ==> Smooth(env, i))
    && (error.Some? ==>
          error == interruption || exists i :: 0 <= i < n && Reached(env, true, i) && error == FaultOf(env, i))
  }

  lemma SubmissionExplained(env: Env, n: nat, submitted: nat, interruption: Option<Fault>, error: Option<Fault>)
    requires submitted <= n && forall i :: 0 <= i < submitted ==> env.announce(i).None?
    requires submitted < n ==> error == env.announce(submitted) && error.Some?
    requires submitted == n ==> error.None?
    ensures Explained(env, n, submitted, {}, interruption, error)
  {
    if submitted < n {
      assert Reached(env, true, submitted) && error == FaultOf(env, submitted);
    }
  }

  lemma InterruptionExplained(env: Env, n: nat, submitted: nat, observed: set<nat>, interruption: Option<Fault>,
      error: Option<Fault>)
    requires Explained(env, n, submitted, observed, interruption, error)
    ensures Explained(env, n, submitted, observed, interruption, if error.None? then interruption else error)
  {
  }

  lemma SettleExplained(env: Env, n: nat, submitted: nat, observed: set<nat>, interruption: Option<Fault>,
      error: Option<Fault>, i: nat)
    requires i < submitted <= n && forall j :: 0 <= j < submitted ==> env.announce(j).None?
    requires Explained(env, n, submitted, observed, interruption, error)
    ensures Explained(env, n, submitted, observed + {i}, interruption, if error.None? then FaultOf(env, i) else error)
  {
    assert Reached(env, true, i);
  }

  /** A sequential batch that stopped after `index` calls. */
  lemma SequentialOutcomes(facts: seq<Fact>, committed: map<nat, nat>, n: nat, env: Env, index: nat)
    requires index <= n
    requires forall j :: 0 <= j < index - 1 ==> Smooth(env, j)
    requires index < n ==> index > 0 && !Smooth(env, index - 1)
    requires forall i: nat :: PhaseOf(facts, i) == if i >= index then Fresh else Closed
    requires forall i: nat :: i in committed <==> i < index && Commits(env, i)
    ensures Outcomes(facts, committed, n, env, false)
    ensures index > 0 ==> Reached(env, false, index - 1)
  {
    hide PhaseOf, Smooth, Commits;
    forall i: nat ensures i < n && Reached(env, false, i) <==> i < index {
      assert index <= i < n ==> !Smooth(env, index - 1);
    }
  }

  // ---------------------------------------------------------------- consequences

  lemma OutcomesSettle(facts: seq<Fact>, committed: map<nat, nat>, n: nat, env: Env, concurrent: bool)
    requires Outcomes(facts, committed, n, env, concurrent)
    ensures forall i: nat :: if i < n && Reached(env, concurrent, i) then EndedOnce(facts, i) else Untouched(facts, i)
  {
    forall i: nat ensures if i < n && Reached(env, concurrent, i) then EndedOnce(facts, i) else Untouched(facts, i) {
      PhaseCounts(facts, i);
    }
  }

  /** What raises first while call `i` is announced and run. */
  ghost predicate RaisesFirst(env: Env, i: nat, fault: Fault) {
    env.announce(i) == Some(fault) || (env.announce(i).None? && env.run(i) == Raises(fault))
  }

  /** How a call ended is what its terminal fact tells: completed when the tool returned
      without an error, cancelled and unknown for the two ways of stopping an agent, and
      failed for everything else. */
  lemma StatusTells(facts: seq<Fact>, env: Env, i: nat, b: nat, e: nat)
    requires Deserving(facts, env) && EndedAt(facts, i, b, e)
    ensures var status := facts[e].status;
            && (status == Session.ToolCompleted <==>
                  env.announce(i).None? && env.run(i).Returns? && env.run(i).result.error.None?)
            && (status == Session.ToolCancelled <==> RaisesFirst(env, i, AgentCancelled))
            && (status == Session.ToolUnknown <==> RaisesFirst(env, i, KeyboardInterrupt))
            && (status == Session.ToolFailed <==>
                  || (env.announce(i).None? && env.run(i).Returns? && env.run(i).result.error.Some?)
                  || exists text :: RaisesFirst(env, i, OtherError(text)))
  {
    assert facts[e].status == Deserved(env, i);
    if env.announce(i).Some? && env.announce(i).value.OtherError? {
      assert RaisesFirst(env, i, OtherError(env.announce(i).value.text));
    } else if env.announce(i).None? && env.run(i).Raises? && env.run(i).fault.OtherError? {
      assert RaisesFirst(env, i, OtherError(env.run(i).fault.text));
    }
  }

  /** Nothing stops a batch at call `j`: nothing raises on its behalf, or nothing raises
      while it is announced and the batch is concurrent. */
  ghost predicate Passes(env: Env, concurrent: bool, j: nat) {
    && env.announce(j).None?
    && (concurrent || (env.run(j).Returns? && env.normalizing(j).None? && env.reporting(j).None?))
  }

  /** A call is started and ended exactly when nothing has stopped the batch in front of
      it, and its result is committed when moreover it ran and normalising did not raise. */
  lemma CallsReached(facts: seq<Fact>, committed: map<nat, nat>, n: nat, env: Env, concurrent: bool, i: nat)
    requires Outcomes(facts, committed, n, env, concurrent)
    ensures EndedOnce(facts, i) <==> i < n && forall j :: 0 <= j < i ==> Passes(env, concurrent, j)
    ensures i in committed <==>
              EndedOnce(facts, i) && env.announce(i).None? && env.run(i).Returns? && env.normalizing(i).None?
  {
    PhaseCounts(facts, i);
    PassesReach(env, concurrent, i);
    hide PhaseOf, Untouched, BeganOnce, EndedOnce, Reached, Passes;
  }

  lemma PassesReach(env: Env, concurrent: bool, i: nat)
    ensures Reached(env, concurrent, i) <==> forall j :: 0 <= j < i ==> Passes(env, concurrent, j)
  {
    assert forall j: nat :: Passes(env, concurrent, j) <==> if concurrent then env.announce(j).None?
           else Smooth(env, j);
  }

  /** The fault of a call is whatever raises first on its behalf. */
  lemma FaultIsFirst(env: Env, i: nat)
    ensures env.announce(i).Some? ==> FaultOf(env, i) == env.announce(i)
    ensures env.announce(i).None? && env.run(i).Raises? ==> FaultOf(env, i) == Some(env.run(i).fault)
    ensures env.announce(i).None? && env.run(i).Returns? && env.normalizing(i).Some? ==>
            FaultOf(env, i) == env.normalizing(i)
    ensures env.announce(i).None? && env.run(i).Returns? && env.normalizing(i).None? ==>
            FaultOf(env, i) == env.reporting(i)
    ensures FaultOf(env, i).None? <==> Smooth(env, i)
  {
  }

  // ---------------------------------------------------------------- media and feedback

  lemma {:induction false} AttachmentsAre(results: seq<ToolResult>, toUser: bool)
    ensures Attachments(results, toUser) ==
            Flatten(seq(|results|, i requires 0 <= i < |results| =>
                      if results[i].presentToUser == toUser then results[i].attachments else []))
  {
    var parts := seq(|results|, i requires 0 <= i < |results| =>
                       if results[i].presentToUser == toUser then results[i].attachments else []);
    if results != [] {
      AttachmentsAre(results[1..], toUser);
      var rest := results[1..];
      assert parts[1..] == seq(|rest|, i requires 0 <= i < |rest| =>
                                 if rest[i].presentToUser == toUser then rest[i].attachments else []);
    }
  }

  /** Behind the results stand one item for the model, with all attachments not meant for
      the user, and one delivery with those that are; each only when there are any. */
  lemma MediaAre(env: Env, n: nat, results: seq<ToolResult>)
    ensures var model, user := Attachments(results, false), Attachments(results, true);
            var media := MediaItems(env, n, results);
            && |media| == (if model != [] then 1 else 0) + (if user != [] then 1 else 0)
            && (model != [] ==> media[0].origin == ToolMedia && media[0].content == env.media(false, model))
            && (user != [] ==> Last(media).origin == ToolDelivery && Last(media).content == env.media(true, user))
            && forall k :: 0 <= k < |media| ==> Aside(media[k])
  {
    hide Attachments;
  }

  /** Showing raises what it raises for the model, if there is something for it, and else
      what it raises for the user; the feedback there is becomes one item. */
  lemma MediaFaultIs(env: Env, completed: map<nat, ToolResult>, n: nat)
    requires Filled(completed, n)
    ensures var results := InOrder(completed, n);
            var model := exists i :: 0 <= i < n && !completed[i].presentToUser && completed[i].attachments != [];
            var user := exists i :: 0 <= i < n && completed[i].presentToUser && completed[i].attachments != [];
            && (model && env.showing(false).Some? ==> MediaFault(env, results) == env.showing(false))
            && (!(model && env.showing(false).Some?) && user ==> MediaFault(env, results) == env.showing(true))
            && (!(model && env.showing(false).Some?) && !user ==> MediaFault(env, results) == None)
    ensures var feedback := Feedback(env, completed, n);
            && |FeedbackItems(env, completed, n)| == (if feedback == [] then 0 else 1)
            && forall k :: 0 <= k < |FeedbackItems(env, completed, n)| ==>
                 FeedbackItems(env, completed, n)[k].origin == HookFeedback
                 && FeedbackItems(env, completed, n)[k].content == env.joined(feedback)
  {
    var results := InOrder(completed, n);
    SomeAttached(results, false);
    SomeAttached(results, true);
    hide Attachments, Feedback;
    assert forall i :: 0 <= i < n ==> results[i] == completed[i];
  }

  lemma {:induction false} SomeAttached(results: seq<ToolResult>, toUser: bool)
    ensures Attachments(results, toUser) != [] <==>
            exists i :: 0 <= i < |results| && results[i].presentToUser == toUser && results[i].attachments != []
  {
    if results != [] {
      SomeAttached(results[1..], toUser);
      assert forall i :: 0 <= i < |results[1..]| ==> results[1..][i] == results[i + 1];
      assert forall i :: 0 < i < |results| ==> results[i] == results[1..][i - 1];
    }
  }

  /** In the unit of a complete batch the model sees its media and not the deliveries. */
  lemma MediaVisible(before: seq<Message>, caller: Message, items: seq<Message>, env: Env, committed: map<nat, nat>,
      k: nat)
    requires caller.role == AssistantRole && caller.toolCalls != [] && caller.origin != ToolDelivery
    requires DistinctIds(caller.toolCalls) && Recorded(items, caller.toolCalls, env, committed)
    requires forall c :: 0 <= c < |caller.toolCalls| ==> c in committed
    requires k < |items|
    ensures var messages := Projection.UnitAt(before + [caller] + items, |before|).messages;
            && (items[k].origin in {ToolMedia, UserInteraction, HookFeedback} ==> |before| + 1 + k in messages)
            && (items[k].origin == ToolDelivery ==> |before| + 1 + k !in messages)
  {
    var history := before + [caller] + items;
    BatchProjection(before, caller, items, env, committed);
    hide Projection.UnitAt, Recorded, DistinctIds;
    assert history[|before| + 1 + k] == items[k];
  }

  lemma {:induction false} FeedbackIs(env: Env, completed: map<nat, ToolResult>, n: nat)
    requires Filled(completed, n)
    ensures Feedback(env, completed, n) ==
            Flatten(seq(n, i requires 0 <= i < n =>
                      completed[i].feedback + if completed[i].executed then env.hookFeedback(i) else []))
  {
    var parts := seq(n, i requires 0 <= i < n =>
                       completed[i].feedback + if completed[i].executed then env.hookFeedback(i) else []);
    if n > 0 {
      FeedbackIs(env, completed, n - 1);
      FeedbackNext(env, completed, n);
      hide Feedback, Flatten;
      var front := seq(n - 1, i requires 0 <= i < n - 1 =>
                         completed[i].feedback + if completed[i].executed then env.hookFeedback(i) else []);
      var last := completed[n - 1].feedback + if completed[n - 1].executed then env.hookFeedback(n - 1) else [];
      assert parts == front + [last];
      FlattenSnoc(front, last);
    }
  }

  lemma FeedbackNext(env: Env, completed: map<nat, ToolResult>, n: nat)
    requires Filled(completed, n) && n > 0
    ensures Feedback(env, completed, n) ==
            Feedback(env, completed, n - 1)
            + (completed[n - 1].feedback + if completed[n - 1].executed then env.hookFeedback(n - 1) else [])
  {
  }

  /** Hooks run for executed calls, up to the first that raises. */
  lemma {:induction false} HookFaultIs(env: Env, completed: map<nat, ToolResult>, n: nat)
    requires Filled(completed, n)
    ensures HookFault(env, completed, n).None? <==>
            forall i :: 0 <= i < n && completed[i].executed ==> env.hooking(i).None?
    ensures HookFault(env, completed, n).Some? ==>
              exists i :: 0 <= i < n && completed[i].executed && HookFault(env, completed, n) == env.hooking(i)
                          && forall j :: 0 <= j < i && completed[j].executed ==> env.hooking(j).None?
  {
    if n > 0 { HookFaultIs(env, completed, n - 1); }
  }

  /** A batch is visible to the model exactly when every call committed its result:
      no later fault, no interruption and no completion order can hide it, and no
      fault that costs a result leaves a part of it visible. */
  lemma BatchVisible(before: seq<Message>, caller: Message, items: seq<Message>, facts: seq<Fact>, env: Env,
                     committed: map<nat, nat>, concurrent: bool)
    requires caller.role == AssistantRole && caller.toolCalls != [] && caller.origin != ToolDelivery
    requires DistinctIds(caller.toolCalls)
    requires Recorded(items, caller.toolCalls, env, committed)
    requires Outcomes(facts, committed, |caller.toolCalls|, env, concurrent)
    ensures var unit := Projection.UnitAt(before + [caller] + items, |before|);
            var n := |caller.toolCalls|;
            unit.Visible() <==>
            && (forall c :: 0 <= c < n ==> Commits(env, c))
            && (!concurrent ==> forall c :: 0 <= c < n - 1 ==> Smooth(env, c))
  {
    BatchProjection(before, caller, items, env, committed);
    var n := |caller.toolCalls|;
    hide Recorded, IsResult, DistinctIds, Projection.UnitAt, PhaseOf;
    hide Smooth, Commits;
    if (forall c :: 0 <= c < n ==> Commits(env, c)) && (!concurrent ==> forall c :: 0 <= c < n - 1 ==> Smooth(env, c)) {
      forall c | 0 <= c < n ensures c in committed {
        CommitsReach(env, concurrent, c);
      }
    } else if !concurrent && (forall c :: 0 <= c < n ==> Commits(env, c)) {
      var c :| 0 <= c < n - 1 && !Smooth(env, c);
      assert !Reached(env, false, n - 1);
    }
  }

  lemma CommitsReach(env: Env, concurrent: bool, c: nat)
    requires forall j :: 0 <= j < c ==> Commits(env, j)
    requires !concurrent ==> forall j :: 0 <= j < c ==> Smooth(env, j)
    ensures Reached(env, concurrent, c)
  {
    forall j | 0 <= j < c ensures if concurrent then env.announce(j).None? else Smooth(env, j) {
      assert Commits(env, j);
    }
  }

  // ---------------------------------------------------------------- replay

  /** The journal event of a fact. */
  function EventOf(f: Fact, calls: seq<ToolCall>, turnId: Option<Id>, stamp: (int, Id, Time)): (e: Session.Event)
    requires f.call < |calls|
  {
    var call := calls[f.call];
    Session.Event(stamp.0, stamp.1, turnId, stamp.2, Some(call.id),
                  match f
                  case Began(_) => Session.ToolBegan(call.name, call.arguments)
                  case Ended(_, status) => Session.ToolEnded(status, call.name, None))
  }

  function EventsOf(facts: seq<Fact>, calls: seq<ToolCall>, turnId: Option<Id>,
      stamps: seq<(int, Id, Time)>): (r: seq<Session.Event>)
    requires |stamps| == |facts| && forall k :: 0 <= k < |facts| ==> facts[k].call < |calls|
    ensures |r| == |facts|
  {
    seq(|facts|, k requires 0 <= k < |facts| => EventOf(facts[k], calls, turnId, stamps[k]))
  }

  /** Replaying the journal of a batch leaves each started call with the status it
      deserves, so none is left to be closed by recovery; other executions stay. */
  lemma {:induction false} ReplayedStatus(
    tools: Dict<Session.ToolExecution>, facts: seq<Fact>, calls: seq<ToolCall>, turnId: Option<Id>,
    stamps: seq<(int, Id, Time)>, env: Env, i: nat)
    requires |stamps| == |facts| && forall k :: 0 <= k < |facts| ==> facts[k].call < |calls|
    requires DistinctIds(calls) && (forall c :: 0 <= c < |calls| ==> calls[c].id != "")
    requires Deserving(facts, env) && i < |calls|
    ensures var after := Session.FoldDict(tools, EventsOf(facts, calls, turnId, stamps), Session.NextTools).vals;
            match PhaseOf(facts, i)
            case Fresh => (calls[i].id in after <==> calls[i].id in tools.vals)
                          && (calls[i].id in after ==> after[calls[i].id] == tools.vals[calls[i].id])
            case Open => calls[i].id in after && after[calls[i].id].status == Session.ToolStarted
            case Closed => calls[i].id in after && after[calls[i].id].status == Deserved(env, i)
                           && after[calls[i].id].status != Session.ToolStarted
            case Broken => true
    decreases |facts|
  {
    if facts != [] {
      var front, f, early := facts[..|facts| - 1], Last(facts), stamps[..|facts| - 1];
      ReplayedStatus(tools, front, calls, turnId, early, env, i);
      var events := EventsOf(facts, calls, turnId, stamps);
      assert events[..|events| - 1] == EventsOf(front, calls, turnId, early);
      assert Last(events) == EventOf(f, calls, turnId, Last(stamps));
      var mid := Session.FoldDict(tools, EventsOf(front, calls, turnId, early), Session.NextTools);
      StatusStep(mid, f, calls, turnId, Last(stamps), i);
      hide Session.NextTools, EventOf, EventsOf, DistinctIds, Deserved;
    }
  }

  /** A fact touches the execution of its own call only. */
  lemma StatusStep(tools: Dict<Session.ToolExecution>, f: Fact, calls: seq<ToolCall>, turnId: Option<Id>,
                   stamp: (int, Id, Time), i: nat)
    requires f.call < |calls| && i < |calls| && DistinctIds(calls) && calls[f.call].id != ""
    ensures var id, after := calls[i].id, Session.NextTools(tools, EventOf(f, calls, turnId, stamp)).vals;
            if f.call == i then id in after && after[id].status == (if f.Began? then Session.ToolStarted else f.status)
            else (id in after <==> id in tools.vals) && (id in after ==> after[id] == tools.vals[id])
  {
    assert f.call < i ==> calls[f.call].id != calls[i].id;
    assert i < f.call ==> calls[i].id != calls[f.call].id;
  }
}
