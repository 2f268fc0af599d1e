/** The hand-off between a running session and the view attached to it: a numbered event
    stream, a bounded replay buffer, and one subscriber at a time. Each action below is
    one lock region; what happens between two regions is any other action. */
module SessionHost {
  import opened Common
  import opened Messages

  const EventReplayLimit: nat := 512

  /** Fatal errors and failed openings do not move the resume cursor. */
  datatype Kind = Ordinary | Failure

  datatype Event = Event(sequence: nat, resumeAfter: nat, kind: Kind, payload: string)

  /** What a subscriber's queue can hold; End is the source's None. */
  datatype Item = Delivered(event: Event) | Replaced | End

  function Published(sequence: nat, kind: Kind, payload: string): (e: Event)
    requires sequence > 0
  {
    Event(sequence, if kind == Failure then sequence - 1 else sequence, kind, payload)
  }

  class EventStream {
    var sequence: nat

    constructor ()
      ensures sequence == 0
    {
      sequence := 0;
    }

    method Publish(kind: Kind, payload: string) returns (e: Event)
      modifies this
      ensures sequence == old(sequence) + 1
      ensures e == Published(sequence, kind, payload)
    {
      sequence := sequence + 1;
      e := Event(sequence, if kind == Failure then sequence - 1 else sequence, kind, payload);
    }
  }

  // ---------------------------------------------------------------- the host's state

  /** `queues` holds everything ever put into each queue, in the order the queues were
      made; `subscriber` is the one that is attached. */
  datatype Host = Host(
    events: seq<Event>,
    sequence: nat,
    resumeAfter: nat,
    attachment: Option<Id>,
    subscriber: Option<nat>,
    queues: seq<seq<Item>>,
    done: bool)

  const NEW := Host([], 0, 0, None, None, [], false)

  datatype Outcome = Refused | Attached(queue: nat, replay: seq<Event>, cursor: nat) | Waiting(queue: nat)

  predicate Fits(h: Host) {
    h.subscriber.Some? ==> h.subscriber.value < |h.queues|
  }

  function Put(h: Host, items: seq<Item>): (r: Host)
    requires Fits(h)
  {
    if h.subscriber.None? then h
    else h.(queues := h.queues[h.subscriber.value := h.queues[h.subscriber.value] + items])
  }

  function Buffer(events: seq<Event>, e: Event): (r: seq<Event>) {
    if |events| < EventReplayLimit then events + [e] else events[|events| - EventReplayLimit + 1..] + [e]
  }

  function Receive(h: Host, e: Event): (r: Host)
    requires Fits(h)
  {
    Put(h.(events := Buffer(h.events, e), sequence := e.sequence, resumeAfter := e.resumeAfter), [Delivered(e)])
  }

  function After(events: seq<Event>, cursor: nat): (r: seq<Event>) {
    if events == [] then []
    else (if events[0].sequence > cursor then [events[0]] else []) + After(events[1..], cursor)
  }

  /** One round of attaching: refused, attached, or told to wait for the one before,
      which is sent away. */
  function Attach(h: Host, cursor: nat, id: Id, takeover: bool, claimed: bool): (r: (Host, Outcome))
    requires Fits(h)
  {
    var replacing := h.attachment.Some? && h.attachment.value != id;
    if replacing && (claimed || (!takeover && h.subscriber.Some?)) then (h, Refused)
    else
      var mine := h.(attachment := Some(id));
      if h.subscriber.None? then
        (mine.(subscriber := Some(|h.queues|), queues := h.queues + [if h.done then [End] else []]),
         Attached(|h.queues|, After(h.events, cursor), h.resumeAfter))
      else
        (Put(mine, if replacing then [Replaced, End] else [End]), Waiting(h.subscriber.value))
  }

  function Detach(h: Host, queue: nat): (r: Host) {
    if h.subscriber == Some(queue) then h.(subscriber := None) else h
  }

  // ---------------------------------------------------------------- runs

  datatype Action =
    | Arrive(kind: Kind, payload: string)
    | TryAttach(cursor: nat, id: Id, takeover: bool, claimed: bool)
    | Leave(queue: nat)
    | MarkDone
    | SendEnd

  /** An attachment as it was granted: the cursor asked for, how many events there had
      been, and the replay list. */
  datatype Grant = Grant(cursor: nat, at: nat, replay: seq<Event>)

  datatype System = System(host: Host, history: seq<Event>, grants: seq<Grant>)

  function Step(s: System, a: Action): (r: System)
    requires Fits(s.host)
    ensures Fits(r.host)
  {
    match a
    case Arrive(kind, payload) =>
      var e := Published(|s.history| + 1, kind, payload);
      System(Receive(s.host, e), s.history + [e], s.grants)
    case TryAttach(cursor, id, takeover, claimed) =>
      var (h, outcome) := Attach(s.host, cursor, id, takeover, claimed);
      System(h, s.history,
             if outcome.Attached? then s.grants + [Grant(cursor, |s.history|, outcome.replay)] else s.grants)
    case Leave(queue) => s.(host := Detach(s.host, queue))
    case MarkDone => s.(host := s.host.(done := true))
    case SendEnd => s.(host := Put(s.host, [End]))
  }

  function Run(actions: seq<Action>): (s: System)
    ensures Fits(s.host)
    decreases |actions|
  {
    if actions == [] then System(NEW, [], []) else Step(Run(actions[..|actions| - 1]), Last(actions))
  }

  // ---------------------------------------------------------------- what a view sees

  /** The events a reader takes from a queue before the end marker. */
  function Taken(queue: seq<Item>): (r: seq<Event>) {
    if queue == [] || queue[0].End? then []
    else (if queue[0].Delivered? then [queue[0].event] else []) + Taken(queue[1..])
  }

  function Base(at: nat): (n: nat) {
    if at <= EventReplayLimit then 0 else at - EventReplayLimit
  }

  /** Where in the stream an attachment begins: behind its cursor, as far as the buffer
      reaches back and no further on than the stream had come. */
  function Begins(g: Grant): (n: nat) {
    if g.cursor > g.at then g.at else if g.cursor < Base(g.at) then Base(g.at) else g.cursor
  }

  function Seen(g: Grant, queue: seq<Item>): (r: seq<Event>) {
    g.replay + Taken(queue)
  }

  ghost predicate BufferFits(h: Host, history: seq<Event>) {
    && h.sequence == |history|
    && h.events == history[Base(|history|)..]
    && (forall i :: 0 <= i < |history| ==> history[i].sequence == i + 1)
    && h.resumeAfter == (if history == [] then 0 else Last(history).resumeAfter)
  }

  /** A view has seen a stretch of the stream; all of it so far while it is attached and
      has not been told to go. */
  ghost predicate Sees(g: Grant, queue: seq<Item>, history: seq<Event>, attached: bool) {
    var seen := Seen(g, queue);
    && g.at <= |history|
    && Begins(g) + |seen| <= |history|
    && seen == history[Begins(g)..Begins(g) + |seen|]
    && (attached && End !in queue ==> Begins(g) + |seen| == |history|)
  }

  ghost predicate GrantFits(s: System, q: nat)
    requires q < |s.grants| == |s.host.queues|
  {
    Sees(s.grants[q], s.host.queues[q], s.history, s.host.subscriber == Some(q))
  }

  ghost predicate Inv(s: System) {
    && BufferFits(s.host, s.history)
    && |s.grants| == |s.host.queues|
    && forall q :: 0 <= q < |s.grants| ==> GrantFits(s, q)
  }

  lemma {:induction false} TakenConcat(a: seq<Item>, b: seq<Item>)
    ensures Taken(a + b) == if End in a then Taken(a) else Taken(a) + Taken(b)
  {
    if a == [] {
      assert a + b == b;
    } else {
      assert (a + b)[1..] == a[1..] + b;
      assert a == [a[0]] + a[1..];
      TakenConcat(a[1..], b);
    }
  }

  lemma AfterNext(events: seq<Event>, i: nat, cursor: nat)
    requires i < |events|
    ensures After(events[i..], cursor) ==
            if events[i].sequence > cursor then [events[i]] + After(events[i + 1..], cursor)
              else After(events[i + 1..], cursor)
  {
    assert events[i..][0] == events[i] && events[i..][1..] == events[i + 1..];
  }

  /** Filtering by number is cutting at the cursor. */
  lemma {:induction false} AfterIsSuffix(events: seq<Event>, base: nat, cursor: nat)
    requires forall i :: 0 <= i < |events| ==> events[i].sequence == base + i + 1
    ensures After(events, cursor) ==
            if cursor <= base then events
            else if cursor - base <= |events| then events[cursor - base..] else []
  {
    if events != [] {
      AfterIsSuffix(events[1..], base + 1, cursor);
      assert events == [events[0]] + events[1..];
    }
  }

  lemma BufferSlides(h: Host, history: seq<Event>, e: Event)
    requires BufferFits(h, history) && e.sequence == |history| + 1
    ensures BufferFits(h.(events := Buffer(h.events, e), sequence := e.sequence, resumeAfter := e.resumeAfter),
            history + [e])
  {
  }

  /** A view that is not attached sees no more, and is still right. */
  lemma SeesLater(g: Grant, queue: seq<Item>, history: seq<Event>, more: seq<Event>, attached: bool)
    requires Sees(g, queue, history, attached)
    ensures Sees(g, queue, history + more, false)
  {
  }

  lemma SeesEvent(g: Grant, queue: seq<Item>, history: seq<Event>, e: Event)
    requires Sees(g, queue, history, true)
    ensures Sees(g, queue + [Delivered(e)], history + [e], true)
  {
    var seen, b := Seen(g, queue), Begins(g);
    SeenMore(g, queue, e);
    hide Seen, Begins;
    SliceGrows(history, e, b, |seen|);
    assert End in queue + [Delivered(e)] <==> End in queue;
  }

  lemma SeenMore(g: Grant, queue: seq<Item>, e: Event)
    ensures Seen(g, queue + [Delivered(e)]) == if End in queue then Seen(g, queue) else Seen(g, queue) + [e]
  {
    assert [Delivered(e)][1..] == [] && Taken([Delivered(e)]) == [e];
    TakenConcat(queue, [Delivered(e)]);
    hide Taken;
    assert g.replay + (Taken(queue) + [e]) == g.replay + Taken(queue) + [e];
  }

  lemma SliceGrows<T>(s: seq<T>, x: T, b: nat, n: nat)
    requires b + n <= |s|
    ensures (s + [x])[b..b + n] == s[b..b + n]
    ensures b + n == |s| ==> (s + [x])[b..b + n + 1] == s[b..b + n] + [x]
  {
  }

  lemma SliceJoins<T>(s: seq<T>, b: nat, n: nat, k: nat, m: nat)
    requires k <= n && b + n <= |s| && b + k + m <= |s|
    ensures s[b..b + n][..k] + s[b + k..b + k + m] == s[b..b + k + m]
  {
  }

  lemma SeesEnd(g: Grant, queue: seq<Item>, history: seq<Event>, items: seq<Item>)
    requires Sees(g, queue, history, true) && (items == [End] || items == [Replaced, End])
    ensures Sees(g, queue + items, history, true)
  {
    if items == [Replaced, End] { assert items[1..] == [End]; }
    TakenConcat(queue, items);
    assert Seen(g, queue + items) == Seen(g, queue);
    assert items[|items| - 1] == End && End in queue + items;
  }

  lemma ArriveKeeps(s: System, kind: Kind, payload: string)
    requires Inv(s) && Fits(s.host)
    ensures Inv(Step(s, Arrive(kind, payload)))
  {
    var s', e := Step(s, Arrive(kind, payload)), Published(|s.history| + 1, kind, payload);
    BufferSlides(s.host, s.history, e);
    assert BufferFits(s'.host, s'.history);
    hide Sees, BufferFits, GrantFits;
    forall q | 0 <= q < |s.grants| ensures GrantFits(s', q) {
      ArriveView(s, kind, payload, q);
    }
  }

  lemma ArriveView(s: System, kind: Kind, payload: string, q: nat)
    requires q < |s.grants| == |s.host.queues| && GrantFits(s, q) && Fits(s.host) && s.host.sequence == |s.history|
    ensures q < |Step(s, Arrive(kind, payload)).grants| && GrantFits(Step(s, Arrive(kind, payload)), q)
  {
    var e := Published(|s.history| + 1, kind, payload);
    hide Sees;
    if s.host.subscriber == Some(q) {
      SeesEvent(s.grants[q], s.host.queues[q], s.history, e);
    } else {
      SeesLater(s.grants[q], s.host.queues[q], s.history, [e], false);
    }
  }

  lemma EndKeeps(s: System, s': System, items: seq<Item>)
    requires Inv(s) && Fits(s.host) && (items == [End] || items == [Replaced, End])
    requires s'.grants == s.grants && s'.history == s.history && s'.host.subscriber == s.host.subscriber
    requires s'.host.queues == Put(s.host, items).queues && BufferFits(s'.host, s'.history)
    ensures Inv(s')
  {
    hide Sees, BufferFits;
    forall q | 0 <= q < |s.grants| ensures GrantFits(s', q) {
      assert GrantFits(s, q);
      if s.host.subscriber == Some(q) { SeesEnd(s.grants[q], s.host.queues[q], s.history, items); }
    }
  }

  /** A new view starts with the replay list, which is the stream from where it begins. */
  lemma SeesReplay(h: Host, history: seq<Event>, cursor: nat, queue: seq<Item>)
    requires BufferFits(h, history) && (queue == [] || queue == [End])
    ensures Sees(Grant(cursor, |history|, After(h.events, cursor)), queue, history, true)
  {
    hide BufferFits, After, Base, Begins, Taken;
    var g := Grant(cursor, |history|, After(h.events, cursor));
    ReplayBegins(h, history, g);
    NothingTaken(queue);
    SuffixSeen(g, queue, history, Begins(g));
    hide Seen;
  }

  lemma ReplayBegins(h: Host, history: seq<Event>, g: Grant)
    requires BufferFits(h, history) && g.at == |history|
    ensures Begins(g) <= |history| && After(h.events, g.cursor) == history[Begins(g)..]
  {
    hide After;
    ReplayIsSuffix(history, Base(|history|), g.cursor);
  }

  lemma NothingTaken(queue: seq<Item>)
    requires queue == [] || queue == [End]
    ensures Taken(queue) == []
  {
  }

  lemma SuffixSeen(g: Grant, queue: seq<Item>, history: seq<Event>, b: nat)
    requires Taken(queue) == [] && b <= |history| && g.replay == history[b..]
    ensures var seen := Seen(g, queue);
            b + |seen| == |history| && seen == history[b..b + |seen|]
  {
    hide Taken;
    assert g.replay + [] == g.replay;
    assert history[b..] == history[b..|history|];
  }

  lemma ReplayIsSuffix(history: seq<Event>, base: nat, cursor: nat)
    requires base <= |history| && forall i :: 0 <= i < |history| ==> history[i].sequence == i + 1
    ensures After(history[base..], cursor) ==
            history[if cursor > |history| then |history| else if cursor < base then base else cursor..]
  {
    hide After;
    AfterIsSuffix(history[base..], base, cursor);
  }

  lemma GrantKeeps(s: System, s': System, cursor: nat)
    requires Inv(s) && Fits(s.host) && s.host.subscriber.None?
    requires s'.history == s.history && s'.host.subscriber == Some(|s.host.queues|)
    requires s'.host.queues == s.host.queues + [if s.host.done then [End] else []]
    requires s'.grants == s.grants + [Grant(cursor, |s.history|, After(s.host.events, cursor))]
    requires BufferFits(s'.host, s'.history)
    ensures Inv(s')
  {
    SeesReplay(s.host, s.history, cursor, if s.host.done then [End] else []);
    hide Sees, BufferFits, After;
    forall q | 0 <= q < |s'.grants| ensures GrantFits(s', q) {
      if q < |s.grants| {
        assert GrantFits(s, q) && s'.grants[q] == s.grants[q] && s'.host.queues[q] == s.host.queues[q];
      }
    }
  }

  lemma StepKeepsInv(s: System, a: Action)
    requires Inv(s) && Fits(s.host)
    ensures Inv(Step(s, a))
  {
    hide Sees, GrantFits;
    var s' := Step(s, a);
    match a
    case Arrive(kind, payload) => ArriveKeeps(s, kind, payload);
    case TryAttach(cursor, id, takeover, claimed) =>
      var (h, outcome) := Attach(s.host, cursor, id, takeover, claimed);
      if outcome.Attached? {
        GrantKeeps(s, s', cursor);
      } else if outcome.Waiting? {
        var items := if s.host.attachment.Some? && s.host.attachment.value != id then [Replaced, End] else [End];
        EndKeeps(s, s', items);
      }
    case Leave(queue) => LeaveKeeps(s, queue);
    case MarkDone => DoneKeeps(s);
    case SendEnd => EndKeeps(s, s', [End]);
  }

  lemma DoneKeeps(s: System)
    requires Inv(s) && Fits(s.host)
    ensures Inv(Step(s, MarkDone))
  {
    var s' := Step(s, MarkDone);
    hide Sees;
    forall q | 0 <= q < |s.grants| ensures GrantFits(s', q) { assert GrantFits(s, q); }
  }

  lemma LeaveKeeps(s: System, queue: nat)
    requires Inv(s) && Fits(s.host)
    ensures Inv(Step(s, Leave(queue)))
  {
    var s' := Step(s, Leave(queue));
    hide Sees;
    forall q | 0 <= q < |s.grants| ensures GrantFits(s', q) {
      assert GrantFits(s, q);
      SeesLater(s.grants[q], s.host.queues[q], s.history, [], s.host.subscriber == Some(q));
      assert s.history + [] == s.history;
    }
  }

  lemma {:induction false} RunKeepsInv(actions: seq<Action>)
    ensures Inv(Run(actions))
    decreases |actions|
  {
    if actions == [] {
      assert |Run([]).grants| == 0;
    } else {
      hide Inv, Step;
      RunKeepsInv(actions[..|actions| - 1]);
      StepKeepsInv(Run(actions[..|actions| - 1]), Last(actions));
    }
  }

  /** In every run, what a view gets, by its replay list and then its queue up to the end
      marker, is one stretch of the stream, each event once and in order. It begins right
      behind the requested cursor exactly when the buffer still reached back to the cursor
      and the cursor was not ahead of the stream. */
  lemma EveryViewSeesOneStretch(actions: seq<Action>, q: nat)
    requires q < |Run(actions).grants|
    ensures var s := Run(actions);
            && |s.grants| == |s.host.queues|
            && var g, seen := s.grants[q], Seen(s.grants[q], s.host.queues[q]);
            && Begins(g) + |seen| <= |s.history|
            && seen == s.history[Begins(g)..Begins(g) + |seen|]
            && (forall i :: 0 <= i < |seen| ==> seen[i].sequence == Begins(g) + i + 1)
            && (s.host.subscriber == Some(q) && End !in s.host.queues[q] ==> Begins(g) + |seen| == |s.history|)
            && (Begins(g) == g.cursor <==> Base(g.at) <= g.cursor <= g.at)
  {
    var s := Run(actions);
    RunKeepsInv(actions);
    hide Run, Seen;
    assert GrantFits(s, q);
    var g, seen := s.grants[q], Seen(s.grants[q], s.host.queues[q]);
    forall i | 0 <= i < |seen| ensures seen[i].sequence == Begins(g) + i + 1 {
      assert seen[i] == s.history[Begins(g) + i];
    }
  }

  /** What one step may put behind a queue: the event that has just arrived, or the end of
      the view, with a word on its replacement or without. */
  predicate OneStepOf(more: seq<Item>, a: Action, s': System) {
    || more == [] || more == [End] || more == [Replaced, End]
    || (a.Arrive? && s'.history != [] && more == [Delivered(Last(s'.history))])
  }

  /** Only the subscriber's queue ever grows, by one event or by the end of the view, and a
      new subscriber is only let in when there is none. */
  lemma OneSubscriber(s: System, a: Action, q: nat)
    requires Fits(s.host) && q < |s.host.queues|
    ensures var s' := Step(s, a);
            && |s.host.queues| <= |s'.host.queues| <= |s.host.queues| + 1
            && s.host.queues[q] <= s'.host.queues[q]
            && OneStepOf(s'.host.queues[q][|s.host.queues[q]|..], a, s')
            && (s.host.subscriber != Some(q) ==> s'.host.queues[q] == s.host.queues[q] && s'.host.subscriber != Some(q))
            && (|s'.host.queues| > |s.host.queues| ==>
                  s.host.subscriber == None && s'.host.subscriber == Some(|s.host.queues|))
  {
    hide Buffer, After;
    var before, after := s.host.queues[q], Step(s, a).host.queues[q];
    assert after[..|before|] == before && after == before + after[|before|..];
    assert before[|before|..] == [];
    forall items ensures (before + items)[|before|..] == items {
    }
  }

  // ---------------------------------------------------------------- who gets in

  /** The events of the last 512 that come behind the cursor. */
  ghost predicate Replays(history: seq<Event>, cursor: nat, replay: seq<Event>) {
    var from: nat := if |history| > 512 then |history| - 512 else 0;
    replay == history[if cursor >= |history| then |history| else if cursor > from then cursor else from..]
  }

  ghost predicate HeldByOther(h: Host, id: Id) {
    h.attachment.Some? && h.attachment.value != id
  }

  /** What a request to attach does. Somebody else's session is refused to a client that does
      not take over while a view is attached, and to one whose claim another has superseded.
      Otherwise the session is the client's: it is let in at once when no view is attached, and
      else that view is told to go, and why when it is another client's. */
  lemma AttachDoes(s: System, cursor: nat, id: Id, takeover: bool, claimed: bool)
    requires Inv(s) && Fits(s.host)
    ensures var h, s' := s.host, Step(s, TryAttach(cursor, id, takeover, claimed));
            var refused := HeldByOther(h, id) && (claimed || (h.subscriber.Some? && !takeover));
            && (refused ==> s' == s)
            && (!refused ==> s'.host.attachment == Some(id) && s'.history == s.history
                             && s'.host == h.(attachment := Some(id), subscriber := s'.host.subscriber,
                                              queues := s'.host.queues))
            && (!refused && h.subscriber.None? ==>
                  && s'.host.subscriber == Some(|h.queues|)
                  && s'.host.queues == h.queues + [if h.done then [End] else []]
                  && |s'.grants| == |s.grants| + 1 && s'.grants[..|s.grants|] == s.grants
                  && Last(s'.grants).cursor == cursor && Last(s'.grants).at == |s.history|
                  && Replays(s.history, cursor, Last(s'.grants).replay))
            && (!refused && h.subscriber.Some? ==>
                  && s'.host.subscriber == h.subscriber && s'.grants == s.grants
                  && (var q := h.subscriber.value;
                      var told := if HeldByOther(h, id) then [Replaced, End] else [End];
                      s'.host.queues == h.queues[q := h.queues[q] + told]))
    ensures var h, (h', outcome) := s.host, Attach(s.host, cursor, id, takeover, claimed);
            && h' == Step(s, TryAttach(cursor, id, takeover, claimed)).host
            && (outcome.Refused? <==> HeldByOther(h, id) && (claimed || (h.subscriber.Some? && !takeover)))
            && (outcome.Attached? ==>
                  && h.subscriber.None? && outcome.queue == |h.queues| && outcome.cursor == h.resumeAfter
                  && Replays(s.history, cursor, outcome.replay))
            && (outcome.Waiting? ==> h.subscriber == Some(outcome.queue))
  {
    AnswersWithReplay(s, cursor);
    hide Inv, After, Replays;
  }

  lemma AnswersWithReplay(s: System, cursor: nat)
    requires Inv(s)
    ensures Replays(s.history, cursor, After(s.host.events, cursor))
  {
    ReplayIsSuffix(s.history, Base(|s.history|), cursor);
    hide GrantFits, After;
  }

  /** A message gets the next number and its own kind and text, and goes to the view that is
      attached; a view that leaves is gone, and no other one is. */
  lemma ArriveAndLeaveDo(s: System, kind: Kind, payload: string, queue: nat)
    requires Inv(s) && Fits(s.host)
    ensures var s' := Step(s, Arrive(kind, payload));
            && |s'.history| == |s.history| + 1 && s'.history[..|s.history|] == s.history
            && (var e := Last(s'.history);
                && e.sequence == |s.history| + 1 && e.kind == kind && e.payload == payload
                && (s.host.subscriber.Some? ==>
                      var q := s.host.subscriber.value;
                      s'.host.queues == s.host.queues[q := s.host.queues[q] + [Delivered(e)]]))
            && (s.host.subscriber.None? ==> s'.host.queues == s.host.queues)
            && s'.host.subscriber == s.host.subscriber && s'.host.attachment == s.host.attachment
    ensures var s' := Step(s, Leave(queue));
            && s'.host.subscriber == (if s.host.subscriber == Some(queue) then None else s.host.subscriber)
            && s'.host == s.host.(subscriber := s'.host.subscriber) && s'.history == s.history && s'.grants == s.grants
  {
    hide GrantFits, After, Buffer;
  }

  /** The client `id` has claimed the session, and nobody but the view `q` is attached. */
  ghost predicate Claimed(s: System, id: Id, q: nat) {
    s.host.attachment == Some(id) && (s.host.subscriber == None || s.host.subscriber == Some(q))
  }

  lemma ClaimStays(s: System, a: Action, id: Id, q: nat)
    requires Fits(s.host) && Claimed(s, id, q) && !a.TryAttach?
    ensures Claimed(Step(s, a), id, q)
    ensures s.host.subscriber == None || a == Leave(q) ==> Step(s, a).host.subscriber == None
  {
    hide Buffer;
  }

  lemma RunMore(pre: seq<Action>, a: Action)
    ensures Run(pre + [a]) == Step(Run(pre), a)
  {
    assert (pre + [a])[..|pre|] == pre;
  }

  lemma {:induction false} ClaimHolds(pre: seq<Action>, mid: seq<Action>, id: Id, q: nat)
    requires Claimed(Run(pre), id, q) && forall a :: a in mid ==> !a.TryAttach?
    ensures Claimed(Run(pre + mid), id, q)
    ensures Run(pre).host.subscriber == None || Leave(q) in mid ==> Run(pre + mid).host.subscriber == None
    decreases |mid|
  {
    if mid == [] {
      assert pre + mid == pre;
    } else {
      var front, a := mid[..|mid| - 1], Last(mid);
      assert mid == front + [a];
      ClaimHolds(pre, front, id, q);
      RunMore(pre + front, a);
      Associative(pre, front, [a]);
      hide Run, Claimed, Step;
      ClaimStays(Run(pre + front), a, id, q);
    }
  }

  /** A client that takes over, in any state of the session, makes the old view end. Whatever
      else happens, when that view has left and no other client has asked, the new one is let
      in, and gets the events behind its cursor that the buffer still has. */
  lemma TakeoverWins(pre: seq<Action>, mid: seq<Action>, cursor: nat, id: Id, q: nat)
    requires Run(pre).host.subscriber == Some(q)
    requires Leave(q) in mid && forall a :: a in mid ==> !a.TryAttach?
    ensures var asked := pre + [TryAttach(cursor, id, true, false)];
            var s, s' := Run(asked + mid), Run(asked + mid + [TryAttach(cursor, id, true, true)]);
            && q < |Run(asked).host.queues| && End in Run(asked).host.queues[q]
            && s'.host.subscriber == Some(|s.host.queues|) && s'.history == s.history
            && |s'.grants| == |s.grants| + 1 && Last(s'.grants).cursor == cursor
            && Replays(s.history, cursor, Last(s'.grants).replay)
  {
    var asked := pre + [TryAttach(cursor, id, true, false)];
    RunKeepsInv(pre);
    RunMore(pre, TryAttach(cursor, id, true, false));
    hide Run, Step, Replays, Inv;
    AttachDoes(Run(pre), cursor, id, true, false);
    assert End in Run(asked).host.queues[q];
    ClaimHolds(asked, mid, id, q);
    RunKeepsInv(asked + mid);
    RunMore(asked + mid, TryAttach(cursor, id, true, true));
    AttachDoes(Run(asked + mid), cursor, id, true, true);
  }

  /** A client that waits for the old view is refused once another client has claimed the
      session in the meantime. */
  lemma SupersededIsRefused(pre: seq<Action>, cursor: nat, id: Id, takeover: bool, other: Action)
    requires other.TryAttach? && other.id != id && Run(pre + [other]) != Run(pre)
    ensures Run(pre + [other] + [TryAttach(cursor, id, takeover, true)]) == Run(pre + [other])
  {
    RunKeepsInv(pre);
    RunKeepsInv(pre + [other]);
    RunMore(pre, other);
    RunMore(pre + [other], TryAttach(cursor, id, takeover, true));
    hide Run, Step, Replays, Inv;
    AttachDoes(Run(pre), other.cursor, other.id, other.takeover, other.claimed);
    AttachDoes(Run(pre + [other]), cursor, id, takeover, true);
  }

  /** The view `q` asked to go on behind the first `k` events that view `p` had taken,
      and the buffer still reached back to there. */
  ghost predicate ComesBack(s: System, p: nat, q: nat, k: nat) {
    && p < |s.grants| && q < |s.grants| == |s.host.queues|
    && k <= |Seen(s.grants[p], s.host.queues[p])|
    && s.grants[q].cursor == Begins(s.grants[p]) + k
    && Base(s.grants[q].at) <= s.grants[q].cursor <= s.grants[q].at
  }

  /** A view that went away and comes back with the cursor of the last event it took goes
      on where it left off: together the two have seen one stretch of the stream. */
  lemma ComingBackContinues(actions: seq<Action>, p: nat, q: nat, k: nat)
    requires ComesBack(Run(actions), p, q, k)
    ensures var s := Run(actions);
            var first, second := Seen(s.grants[p], s.host.queues[p])[..k], Seen(s.grants[q], s.host.queues[q]);
            var b := Begins(s.grants[p]);
            && b + k + |second| <= |s.history|
            && first + second == s.history[b..b + k + |second|]
  {
    var s := Run(actions);
    RunKeepsInv(actions);
    hide Run, Seen;
    assert GrantFits(s, p) && GrantFits(s, q);
    assert Begins(s.grants[q]) == Begins(s.grants[p]) + k;
    hide Begins, Inv;
    var b, first, second := Begins(s.grants[p]), Seen(s.grants[p], s.host.queues[p]),
      Seen(s.grants[q], s.host.queues[q]);
    SliceJoins(s.history, b, |first|, k, |second|);
  }

  /** Coming back with the cursor of the reported state replays nothing, or exactly the
      failure that has not been shown to have arrived. */
  lemma ResumeCursorReplays(actions: seq<Action>)
    ensures var s := Run(actions);
            After(s.host.events, s.host.resumeAfter) ==
            if s.history != [] && Last(s.history).kind == Failure then [Last(s.history)] else []
  {
    var s := Run(actions);
    RunKeepsInv(actions);
    RunPublished(actions);
    hide Run;
    if s.history != [] { assert Last(s.history) == s.history[|s.history| - 1]; }
    ReplayIsSuffix(s.history, Base(|s.history|), s.host.resumeAfter);
  }

  ghost predicate AllPublished(history: seq<Event>) {
    forall i :: 0 <= i < |history| ==> history[i] == Published(i + 1, history[i].kind, history[i].payload)
  }

  lemma {:induction false} RunPublished(actions: seq<Action>)
    ensures AllPublished(Run(actions).history)
    decreases |actions|
  {
    if actions != [] {
      RunPublished(actions[..|actions| - 1]);
      StepPublished(Run(actions[..|actions| - 1]), Last(actions));
      hide Step, AllPublished;
    }
  }

  lemma StepPublished(s: System, a: Action)
    requires Fits(s.host) && AllPublished(s.history)
    ensures AllPublished(Step(s, a).history)
  {
    hide Receive, Attach;
  }

  // ---------------------------------------------------------------- the host

  class ActiveSession {
    var events: seq<Event>
    var eventSequence: nat
    var resumeAfter: nat
    var attachmentId: Option<Id>
    var subscriber: Option<nat>
    var queues: seq<seq<Item>>
    var done: bool

    function View(): (h: Host)
      reads this
    {
      Host(events, eventSequence, resumeAfter, attachmentId, subscriber, queues, done)
    }

    constructor ()
      ensures View() == NEW
    {
      events, eventSequence, resumeAfter := [], 0, 0;
      attachmentId, subscriber, queues, done := None, None, [], false;
    }

    method PutNowait(item: Item)
      requires Fits(View())
      modifies this`queues
      ensures View() == Put(old(View()), [item])
    {
      if subscriber.Some? {
        queues := queues[subscriber.value := queues[subscriber.value] + [item]];
      }
    }

    /** The reader's lock region for one message. */
    method ReadMessage(message: Event)
      requires Fits(View())
      modifies this
      ensures View() == Receive(old(View()), message)
    {
      eventSequence := message.sequence;
      resumeAfter := message.resumeAfter;
      events := events + [message];
      if |events| > EventReplayLimit {
        events := events[|events| - EventReplayLimit..];
      }
      assert events == Buffer(old(events), message);
      PutNowait(Delivered(message));
    }

    /** One round of the attach loop. */
    method AttachOnce(afterEvent: nat, id: Id, takeover: bool, claimed: bool) returns (outcome: Outcome)
      requires Fits(View())
      modifies this
      ensures (View(), outcome) == Attach(old(View()), afterEvent, id, takeover, claimed)
    {
      var replacing := attachmentId.Some? && attachmentId.value != id;
      if replacing && (claimed || (!takeover && subscriber.Some?)) {
        return Refused;
      }
      attachmentId := Some(id);
      if subscriber.None? {
        var queue := |queues|;
        queues := queues + [[]];
        subscriber := Some(queue);
        var replay := Replay(afterEvent);
        if done { PutNowait(End); }
        assert [] + [End] == [End];
        assert queues[..queue] == old(queues) && queues[queue] == if done then [End] else [];
        assert queues == old(queues) + [if done then [End] else []];
        return Attached(queue, replay, resumeAfter);
      }
      ghost var before := queues[subscriber.value];
      if replacing { PutNowait(Replaced); }
      PutNowait(End);
      assert before + [Replaced] + [End] == before + [Replaced, End];
      assert queues == old(queues)[subscriber.value := before + if replacing then [Replaced, End] else [End]];
      outcome := Waiting(subscriber.value);
    }

    method Replay(afterEvent: nat) returns (replay: seq<Event>)
      ensures replay == After(events, afterEvent)
    {
      replay := [];
      assert events[0..] == events;
      for i := 0 to |events|
        invariant After(events, afterEvent) == replay + After(events[i..], afterEvent)
      {
        AfterNext(events, i, afterEvent);
        hide After;
        if events[i].sequence > afterEvent {
          assert replay + ([events[i]] + After(events[i + 1..], afterEvent))
              == replay + [events[i]] + After(events[i + 1..], afterEvent);
          replay := replay + [events[i]];
        }
      }
      assert events[|events|..] == [];
    }

    method DetachQueue(queue: nat)
      modifies this
      ensures View() == Detach(old(View()), queue)
    {
      if subscriber == Some(queue) { subscriber := None; }
    }

    /** The end of the reader, or of `close`: first the mark, later the end marker. */
    method MarkFinished()
      modifies this
      ensures View() == old(View()).(done := true)
    {
      done := true;
    }

    method PutEnd()
      requires Fits(View())
      modifies this
      ensures View() == Put(old(View()), [End])
    {
      PutNowait(End);
    }
  }
}
