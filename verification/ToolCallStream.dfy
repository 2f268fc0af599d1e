/** Assembly of streamed tool calls. Provider deltas name their call by index, by id,
    by both or by neither; the assembler links them up and refuses ambiguous streams. */
module ToolCallStream {
  import opened Common
  import opened Messages

  datatype Arguments = NoArguments | Text(text: string) | NotText

  /** The part of a delta under "function", when it has one. */
  datatype Body = NoFunction | Function(name: Option<string>, arguments: Arguments)

  /** A delta whose index and id have passed their type checks. */
  datatype Delta = Delta(index: Option<nat>, id: Option<Id>, body: Body) {
    predicate Named() { index.Some? || id.Some? }

    function Fragment(): (r: seq<string>) { Fragments(body) }
  }

  datatype CallState = CallState(index: Option<nat>, id: Option<Id>, name: Option<string>, fragments: seq<string>)

  const BLANK := CallState(None, None, None, [])

  /** The calls in order of appearance, and where to find them; the source's maps hold
      references to the list's objects, here positions in it. */
  datatype Assembly = Assembly(states: seq<CallState>, byIndex: map<nat, nat>, byId: map<Id, nat>)

  const EMPTY := Assembly([], map[], map[])

  // ---------------------------------------------------------------- one delta

  function Lookup<K>(m: map<K, nat>, k: Option<K>): (r: Option<nat>) {
    if k.Some? && k.value in m then Some(m[k.value]) else None
  }

  /** Which call a delta belongs to, or a new one; the number of calls means a new one. */
  function Resolve(a: Assembly, index: Option<nat>, id: Option<Id>): (r: Result<nat>) {
    var byIndex, byId := Lookup(a.byIndex, index), Lookup(a.byId, id);
    if byIndex.Some? && byId.Some? && byIndex != byId then Err
    else if byIndex.Some? then Ok(byIndex.value)
    else if byId.Some? then Ok(byId.value)
    else if index.None? && id.None? then if |a.states| == 1 then Ok(0) else Err
    else if |a.states| == 1 && ((index.None? && a.states[0].id.None?) || (id.None? && a.states[0].index.None?)) then Err
    else Ok(|a.states|)
  }

  predicate Clash<T(==)>(known: Option<T>, incoming: Option<T>) {
    known.Some? && incoming.Some? && known != incoming
  }

  function Merge<T>(known: Option<T>, incoming: Option<T>): (r: Option<T>) {
    if incoming.Some? then incoming else known
  }

  /** A fragment of the function's arguments; an empty one leaves no trace. */
  function Fragments(body: Body): (r: seq<string>) {
    if body.Function? && body.arguments.Text? && body.arguments.text != "" then [body.arguments.text] else []
  }

  function AbsorbBody(s: CallState, body: Body): (r: Result<CallState>) {
    if body.NoFunction? then Ok(s)
    else
      var name := if body.name.Some? && body.name.value != "" then body.name else None;
      if Clash(s.name, name) || body.arguments.NotText? then Err
      else Ok(s.(name := Merge(s.name, name), fragments := s.fragments + Fragments(body)))
  }

  /** What a call becomes by one more of its deltas. */
  function Absorb(s: CallState, d: Delta): (r: Result<CallState>) {
    if Clash(s.index, d.index) || Clash(s.id, d.id) then Err
    else AbsorbBody(s.(index := Merge(s.index, d.index), id := Merge(s.id, d.id)), d.body)
  }

  function Add(a: Assembly, d: Delta): (r: Result<Assembly>) {
    var p := Resolve(a, d.index, d.id);
    if p.Err? || p.value > |a.states| then Err
    else
      var state := Absorb(if p.value < |a.states| then a.states[p.value] else BLANK, d);
      if state.Err? then Err
      else
        Ok(Assembly(
          if p.value < |a.states| then a.states[p.value := state.value] else a.states + [state.value],
          if d.index.Some? then a.byIndex[d.index.value := p.value] else a.byIndex,
          if d.id.Some? then a.byId[d.id.value := p.value] else a.byId))
  }

  function AddAll(a: Assembly, ds: seq<Delta>): (r: Result<Assembly>)
    decreases |ds|
  {
    if ds == [] then Ok(a)
    else
      var front := AddAll(a, ds[..|ds| - 1]);
      if front.Err? then Err else Add(front.value, Last(ds))
  }

  // ---------------------------------------------------------------- the maps

  /** The map names exactly the calls that have an index. */
  ghost predicate IndexFits(states: seq<CallState>, byIndex: map<nat, nat>) {
    && (forall i :: i in byIndex ==> byIndex[i] < |states| && states[byIndex[i]].index == Some(i))
    && (forall p :: 0 <= p < |states| && states[p].index.Some? ==>
          states[p].index.value in byIndex && byIndex[states[p].index.value] == p)
  }

  ghost predicate IdFits(states: seq<CallState>, byId: map<Id, nat>) {
    && (forall x :: x in byId ==> byId[x] < |states| && states[byId[x]].id == Some(x))
    && (forall p :: 0 <= p < |states| && states[p].id.Some? ==>
          states[p].id.value in byId && byId[states[p].id.value] == p)
  }

  ghost predicate Consistent(a: Assembly) {
    && IndexFits(a.states, a.byIndex)
    && IdFits(a.states, a.byId)
    && (forall p :: 0 <= p < |a.states| ==> a.states[p].index.Some? || a.states[p].id.Some?)
  }

  /** Maps that are consistent are injective: no two calls share an index or an id. */
  lemma ConsistentIsInjective(a: Assembly, p: nat, q: nat)
    requires Consistent(a) && p < q < |a.states|
    ensures a.states[p].index.Some? ==> a.states[p].index != a.states[q].index
    ensures a.states[p].id.Some? ==> a.states[p].id != a.states[q].id
  {
  }

  ghost predicate NamedBy(s: CallState, index: Option<nat>, id: Option<Id>) {
    (index.Some? && s.index == index) || (id.Some? && s.id == id)
  }

  /** A delta belongs to the call that its index or id names, to a new one when they name
      none, and to the only one when it has neither. It is refused when they name two calls,
      when it has neither and there is not just one call, and when it might name the only call
      by the key that one has not got yet. */
  lemma ResolveTells(a: Assembly, index: Option<nat>, id: Option<Id>)
    requires Consistent(a)
    ensures var states, r := a.states, Resolve(a, index, id);
            if exists p, q :: 0 <= p < |states| && 0 <= q < |states| && p != q && index.Some? && id.Some?
                              && states[p].index == index && states[q].id == id then r == Err
            else if exists p :: 0 <= p < |states| && NamedBy(states[p], index, id) then
              r.Ok? && r.value < |states| && NamedBy(states[r.value], index, id)
            else if |states| != 1 then r == if index.None? && id.None? then Err else Ok(|states|)
            else
              r == if index.None? && id.None? then Ok(0)
                   else if (index.None? && states[0].id.None?) || (id.None? && states[0].index.None?) then Err
                   else Ok(1)
  {
  }

  /** `t` is `s` with one call replaced, or one more. */
  predicate ChangedAt(s: seq<CallState>, t: seq<CallState>, p: nat) {
    && p < |t|
    && |t| == (if p < |s| then |s| else |s| + 1)
    && p <= |s|
    && forall q :: 0 <= q < |s| && q != p ==> t[q] == s[q]
  }

  lemma IndexKept(s: seq<CallState>, t: seq<CallState>, byIndex: map<nat, nat>, p: nat, index: Option<nat>)
    requires IndexFits(s, byIndex) && ChangedAt(s, t, p)
    requires index.Some? && index.value in byIndex ==> byIndex[index.value] == p
    requires t[p].index == Merge(if p < |s| then s[p].index else None, index)
    requires p < |s| ==> !Clash(s[p].index, index)
    ensures IndexFits(t, if index.Some? then byIndex[index.value := p] else byIndex)
  {
  }

  lemma IdKept(s: seq<CallState>, t: seq<CallState>, byId: map<Id, nat>, p: nat, id: Option<Id>)
    requires IdFits(s, byId) && ChangedAt(s, t, p)
    requires id.Some? && id.value in byId ==> byId[id.value] == p
    requires t[p].id == Merge(if p < |s| then s[p].id else None, id)
    requires p < |s| ==> !Clash(s[p].id, id)
    ensures IdFits(t, if id.Some? then byId[id.value := p] else byId)
  {
  }

  lemma ResolveFits(a: Assembly, index: Option<nat>, id: Option<Id>)
    requires Consistent(a) && Resolve(a, index, id).Ok?
    ensures var p := Resolve(a, index, id).value;
            && p <= |a.states|
            && (p == |a.states| ==> index.Some? || id.Some?)
            && (index.Some? && index.value in a.byIndex ==> a.byIndex[index.value] == p)
            && (id.Some? && id.value in a.byId ==> a.byId[id.value] == p)
            && (index.None? && id.None? ==> p == 0)
  {
  }

  lemma AddChanges(a: Assembly, d: Delta)
    requires Add(a, d).Ok?
    ensures var p, b := Resolve(a, d.index, d.id).value, Add(a, d).value;
            && p <= |a.states|
            && var s := if p < |a.states| then a.states[p] else BLANK;
            && Absorb(s, d).Ok?
            && ChangedAt(a.states, b.states, p)
            && b.states[p] == Absorb(s, d).value
            && b.byIndex == (if d.index.Some? then a.byIndex[d.index.value := p] else a.byIndex)
            && b.byId == (if d.id.Some? then a.byId[d.id.value := p] else a.byId)
  {
    hide Absorb, Resolve;
  }

  lemma AddKeepsConsistent(a: Assembly, d: Delta)
    requires Consistent(a) && Add(a, d).Ok?
    ensures Consistent(Add(a, d).value)
  {
    var p, b := Resolve(a, d.index, d.id).value, Add(a, d).value;
    AddChanges(a, d);
    ResolveFits(a, d.index, d.id);
    AbsorbIdentity(if p < |a.states| then a.states[p] else BLANK, d);
    hide Absorb, Add, Resolve, IndexFits, IdFits;
    IndexKept(a.states, b.states, a.byIndex, p, d.index);
    IdKept(a.states, b.states, a.byId, p, d.id);
  }

  lemma AbsorbIdentity(s: CallState, d: Delta)
    requires Absorb(s, d).Ok?
    ensures var t := Absorb(s, d).value;
            && t.index == Merge(s.index, d.index) && !Clash(s.index, d.index)
            && t.id == Merge(s.id, d.id) && !Clash(s.id, d.id)
            && t.fragments == s.fragments + d.Fragment()
  {
  }

  // ---------------------------------------------------------------- nothing lost

  /** Does the call at position `p`, as it ended up, own this delta? Deltas that name
      nothing belong to the first call. */
  predicate Owns(s: CallState, p: nat, d: Delta) {
    if d.index.Some? then s.index == d.index
    else if d.id.Some? then s.id == d.id
    else p == 0
  }

  /** The fragments of the deltas a call owns, in stream order. */
  function Owned(s: CallState, p: nat, ds: seq<Delta>): (r: seq<string>)
    decreases |ds|
  {
    if ds == [] then []
    else Owned(s, p, ds[..|ds| - 1]) + if Owns(s, p, Last(ds)) then Last(ds).Fragment() else []
  }

  /** Later, a call is known by at least what it was known by. */
  predicate Refines(s: CallState, t: CallState) {
    && (s.index.Some? ==> t.index == s.index)
    && (s.id.Some? ==> t.id == s.id)
  }

  /** What every delta so far is: owned by one call. */
  ghost predicate Assigned(a: Assembly, ds: seq<Delta>) {
    forall k :: 0 <= k < |ds| ==> HasOwner(a, ds[k])
  }

  ghost predicate HasOwner(a: Assembly, d: Delta) {
    exists p :: 0 <= p < |a.states| && Owns(a.states[p], p, d)
  }

  lemma OneOwner(a: Assembly, d: Delta, p: nat, q: nat)
    requires Consistent(a) && p < |a.states| && q < |a.states|
    requires Owns(a.states[p], p, d) && Owns(a.states[q], q, d)
    ensures p == q
  {
  }

  /** A call that learns its index or id later owns the same earlier deltas. */
  lemma {:induction false} OwnedStable(a: Assembly, b: Assembly, p: nat, ds: seq<Delta>)
    requires Consistent(a) && Consistent(b) && Assigned(a, ds)
    requires p < |a.states| <= |b.states|
    requires forall q :: 0 <= q < |a.states| ==> Refines(a.states[q], b.states[q])
    ensures Owned(b.states[p], p, ds) == Owned(a.states[p], p, ds)
    decreases |ds|
  {
    if ds != [] {
      var front, d := ds[..|ds| - 1], Last(ds);
      assert HasOwner(a, ds[|ds| - 1]);
      assert forall k :: 0 <= k < |front| ==> front[k] == ds[k];
      OwnedStable(a, b, p, front);
      var q :| 0 <= q < |a.states| && Owns(a.states[q], q, d);
      assert Owns(b.states[q], q, d);
      if Owns(b.states[p], p, d) { OneOwner(b, d, p, q); }
    }
  }

  /** A call that is new owns none of the deltas before it. */
  lemma {:induction false} OwnedByNew(a: Assembly, b: Assembly, p: nat, ds: seq<Delta>)
    requires Consistent(a) && Consistent(b) && Assigned(a, ds)
    requires |a.states| <= p < |b.states|
    requires forall q :: 0 <= q < |a.states| ==> Refines(a.states[q], b.states[q])
    ensures Owned(b.states[p], p, ds) == []
    decreases |ds|
  {
    if ds != [] {
      var front, d := ds[..|ds| - 1], Last(ds);
      assert HasOwner(a, ds[|ds| - 1]);
      assert forall k :: 0 <= k < |front| ==> front[k] == ds[k];
      OwnedByNew(a, b, p, front);
      var q :| 0 <= q < |a.states| && Owns(a.states[q], q, d);
      assert Owns(b.states[q], q, d);
      if Owns(b.states[p], p, d) { OneOwner(b, d, p, q); }
    }
  }

  /** The call a delta was given to is the one that owns it. */
  lemma AddRefines(a: Assembly, d: Delta)
    requires Consistent(a) && Add(a, d).Ok?
    ensures var b, p := Add(a, d).value, Resolve(a, d.index, d.id).value;
            && |a.states| <= |b.states| && p < |b.states|
            && (forall q :: 0 <= q < |a.states| ==> Refines(a.states[q], b.states[q]))
            && (forall q :: 0 <= q < |b.states| ==> (Owns(b.states[q], q, d) <==> q == p))
            && (forall q :: 0 <= q < |b.states| ==>
                  b.states[q].fragments ==
                  (if q < |a.states| then a.states[q].fragments else []) + if q == p then d.Fragment() else [])
  {
    var b, p := Add(a, d).value, Resolve(a, d.index, d.id).value;
    AddKeepsConsistent(a, d);
    AddChanges(a, d);
    ResolveFits(a, d.index, d.id);
    AbsorbIdentity(if p < |a.states| then a.states[p] else BLANK, d);
    hide Absorb, Add, Resolve, Consistent;
    assert Owns(b.states[p], p, d);
    forall q | 0 <= q < |b.states| && Owns(b.states[q], q, d) ensures q == p { OneOwner(b, d, p, q); }
  }

  lemma AssignedGrows(a: Assembly, b: Assembly, front: seq<Delta>, ds: seq<Delta>)
    requires ds != [] && front == ds[..|ds| - 1] && Assigned(a, front) && HasOwner(b, Last(ds))
    requires |a.states| <= |b.states| && forall q :: 0 <= q < |a.states| ==> Refines(a.states[q], b.states[q])
    ensures Assigned(b, ds)
  {
    forall k | 0 <= k < |ds| ensures HasOwner(b, ds[k]) {
      if k < |front| {
        assert ds[k] == front[k] && HasOwner(a, front[k]);
        var q :| 0 <= q < |a.states| && Owns(a.states[q], q, ds[k]);
        assert Owns(b.states[q], q, ds[k]);
      }
    }
  }

  /** The arguments of every call are the fragments it owns. */
  ghost predicate Kept(a: Assembly, ds: seq<Delta>) {
    forall p :: 0 <= p < |a.states| ==> a.states[p].fragments == Owned(a.states[p], p, ds)
  }

  lemma KeptGrows(a: Assembly, d: Delta, front: seq<Delta>, ds: seq<Delta>)
    requires Consistent(a) && Add(a, d).Ok? && Assigned(a, front) && Kept(a, front)
    requires ds != [] && front == ds[..|ds| - 1] && d == Last(ds)
    ensures Assigned(Add(a, d).value, ds) && Kept(Add(a, d).value, ds)
  {
    var b, p := Add(a, d).value, Resolve(a, d.index, d.id).value;
    AddKeepsConsistent(a, d);
    AddRefines(a, d);
    hide Add, Resolve, Consistent, Assigned;
    assert Owns(b.states[p], p, d);
    AssignedGrows(a, b, front, ds);
    forall q | 0 <= q < |b.states| ensures b.states[q].fragments == Owned(b.states[q], q, ds) {
      if q < |a.states| { OwnedStable(a, b, q, front); } else { OwnedByNew(a, b, q, front); }
    }
  }

  /** In an accepted stream every delta has one owner, and the arguments of every call
      are the fragments of the deltas it owns, in order: none lost, none repeated, none
      given to another call. */
  lemma {:induction false} FragmentsKept(ds: seq<Delta>)
    requires AddAll(EMPTY, ds).Ok?
    ensures var a := AddAll(EMPTY, ds).value;
            Consistent(a) && Assigned(a, ds) && Kept(a, ds)
    decreases |ds|
  {
    hide Add;
    if ds != [] {
      var front, d := ds[..|ds| - 1], Last(ds);
      FragmentsKept(front);
      var a := AddAll(EMPTY, front).value;
      hide Consistent, Assigned, Kept;
      AddKeepsConsistent(a, d);
      KeptGrows(a, d, front, ds);
    }
  }

  // ---------------------------------------------------------------- the end of the stream

  predicate AllIndexed(states: seq<CallState>) {
    forall p :: 0 <= p < |states| ==> states[p].index.Some?
  }

  predicate NoneIndexed(states: seq<CallState>) {
    forall p :: 0 <= p < |states| ==> states[p].index.None?
  }

  function Key(s: CallState): (n: nat) {
    if s.index.Some? then s.index.value else 0
  }

  function Insert(s: CallState, sorted: seq<CallState>): (r: seq<CallState>) {
    if sorted == [] || Key(s) < Key(sorted[0]) then [s] + sorted else [sorted[0]] + Insert(s, sorted[1..])
  }

  /** A stable sort by index. */
  function Sorted(states: seq<CallState>): (r: seq<CallState>)
    decreases |states|
  {
    if states == [] then [] else Insert(Last(states), Sorted(states[..|states| - 1]))
  }

  function Joined(fragments: seq<string>): (s: string) {
    Flatten(fragments)
  }

  function Calls(states: seq<CallState>): (r: Result<seq<ToolCall>>)
    decreases |states|
  {
    if states == [] then Ok([])
    else
      var front, s := Calls(states[..|states| - 1]), Last(states);
      if front.Err? || s.id.None? || s.name.None? then Err
      else Ok(front.value + [ToolCall(s.id.value, s.name.value, Joined(s.fragments))])
  }

  function Finish(a: Assembly): (r: Result<seq<ToolCall>>) {
    if AllIndexed(a.states) then Calls(Sorted(a.states))
    else if NoneIndexed(a.states) then Calls(a.states)
    else Err
  }

  ghost predicate Increasing(states: seq<CallState>) {
    forall p, q :: 0 <= p < q < |states| ==> Key(states[p]) < Key(states[q])
  }

  lemma {:induction false} InsertIncreasing(s: CallState, sorted: seq<CallState>)
    requires Increasing(sorted) && forall p :: 0 <= p < |sorted| ==> Key(sorted[p]) != Key(s)
    ensures Increasing(Insert(s, sorted))
    ensures forall x :: x in Insert(s, sorted) <==> x == s || x in sorted
    ensures |Insert(s, sorted)| == |sorted| + 1
  {
    if sorted != [] && Key(s) >= Key(sorted[0]) {
      var rest := sorted[1..];
      assert forall p :: 0 <= p < |rest| ==> rest[p] == sorted[p + 1];
      InsertIncreasing(s, rest);
      var more := Insert(s, rest);
      forall p | 0 <= p < |more| ensures Key(sorted[0]) < Key(more[p]) { assert more[p] in more; }
      assert sorted == [sorted[0]] + rest;
    }
  }

  lemma {:induction false} SortedIncreasing(states: seq<CallState>)
    requires forall p, q :: 0 <= p < q < |states| ==> Key(states[p]) != Key(states[q])
    ensures Increasing(Sorted(states)) && |Sorted(states)| == |states|
    ensures forall x :: x in Sorted(states) <==> x in states
    decreases |states|
  {
    if states != [] {
      var front, s := states[..|states| - 1], Last(states);
      SortedIncreasing(front);
      var sorted := Sorted(front);
      forall p | 0 <= p < |sorted| ensures Key(sorted[p]) != Key(s) {
        assert sorted[p] in front;
      }
      InsertIncreasing(s, sorted);
      assert states == front + [s];
    }
  }

  lemma HasElement<T>(s: seq<T>)
    ensures s != [] ==> exists x :: x in s
  {
    if s != [] { assert s[0] in s; }
  }

  /** One order fits a set of calls with different indexes. */
  lemma {:induction false} IncreasingUnique(a: seq<CallState>, b: seq<CallState>)
    requires Increasing(a) && Increasing(b) && forall x :: x in a <==> x in b
    ensures a == b
    decreases |a|
  {
    if a == [] {
      HasElement(b);
    } else {
      assert a[0] in b;
      assert b != [] && b[0] in a;
      var i :| 0 <= i < |b| && b[i] == a[0];
      var j :| 0 <= j < |a| && a[j] == b[0];
      assert i == 0 && j == 0;
      assert a == [a[0]] + a[1..] && b == [b[0]] + b[1..];
      forall x ensures x in a[1..] <==> x in b[1..] {
        assert x in a <==> x in b;
        assert a[0] !in a[1..] && b[0] !in b[1..];
      }
      IncreasingUnique(a[1..], b[1..]);
    }
  }

  /** The finished calls, in the order of `states`. */
  lemma {:induction false} CallsSpell(states: seq<CallState>)
    ensures Calls(states).Ok? <==> forall p :: 0 <= p < |states| ==> states[p].id.Some? && states[p].name.Some?
    ensures Calls(states).Ok? ==>
              && |Calls(states).value| == |states|
              && forall p :: 0 <= p < |states| ==>
                   Calls(states).value[p] == ToolCall(states[p].id.value, states[p].name.value,
                     Joined(states[p].fragments))
    decreases |states|
  {
    if states != [] {
      CallsSpell(states[..|states| - 1]);
      assert states == states[..|states| - 1] + [Last(states)];
    }
  }

  /** At the end, a stream is accepted exactly when all its calls have an index or none has,
      and each has an id and a name. */
  lemma FinishesWhen(a: Assembly)
    requires Consistent(a)
    ensures Finish(a).Ok? <==>
            && (forall s, t :: s in a.states && t in a.states ==> (s.index.Some? <==> t.index.Some?))
            && (forall s :: s in a.states ==> s.id.Some? && s.name.Some?)
  {
    if AllIndexed(a.states) {
      SortedStates(a);
      WholeWhen(Sorted(a.states));
    } else if NoneIndexed(a.states) {
      WholeWhen(a.states);
    }
    hide Consistent, Sorted, Calls;
  }

  lemma WholeWhen(states: seq<CallState>)
    ensures Calls(states).Ok? <==> forall s :: s in states ==> s.id.Some? && s.name.Some?
  {
    CallsSpell(states);
    hide Calls;
    assert forall p :: 0 <= p < |states| ==> states[p] in states;
  }

  /** Calls without an index come in the order in which they appeared. */
  lemma FinishesAsArrived(a: Assembly)
    requires Finish(a).Ok? && forall s :: s in a.states ==> s.index.None?
    ensures |Finish(a).value| == |a.states|
    ensures forall p :: 0 <= p < |a.states| ==> IsCall(a.states[p], Finish(a).value[p])
  {
    CallsSpell(a.states);
    hide Calls, Joined;
    if a.states == [] { assert Sorted([]) == []; }
    assert forall p :: 0 <= p < |a.states| ==> a.states[p] in a.states;
  }

  /** Calls with an index come in the order of their indices. */
  lemma FinishesByIndex(a: Assembly) returns (sorted: seq<CallState>)
    requires Consistent(a) && Finish(a).Ok? && forall s :: s in a.states ==> s.index.Some?
    ensures forall s :: s in sorted <==> s in a.states
    ensures forall p, q :: 0 <= p < q < |sorted| ==> Behind(sorted[p], sorted[q])
    ensures |Finish(a).value| == |sorted| && forall p :: 0 <= p < |sorted| ==> IsCall(sorted[p], Finish(a).value[p])
  {
    sorted := Sorted(a.states);
    assert AllIndexed(a.states) by { assert forall p :: 0 <= p < |a.states| ==> a.states[p] in a.states; }
    SortedStates(a);
    FinishIs(a);
    CallsSpell(sorted);
    hide Consistent, Sorted, Calls, Joined, Key, Finish;
    assert forall p :: 0 <= p < |sorted| ==> sorted[p] in sorted;
  }

  ghost predicate IsCall(s: CallState, call: ToolCall) {
    s.id == Some(call.id) && s.name == Some(call.name) && Joined(s.fragments) == call.arguments
  }

  ghost predicate Behind(s: CallState, t: CallState) {
    s.index.Some? && t.index.Some? && s.index.value < t.index.value
  }

  function Assemble(ds: seq<Delta>): (r: Result<seq<ToolCall>>) {
    var a := AddAll(EMPTY, ds);
    if a.Err? then Err else Finish(a.value)
  }

  /** The calls of an accepted stream have different ids. */
  lemma FinishedIdsDistinct(ds: seq<Delta>)
    requires Assemble(ds).Ok?
    ensures var calls := Assemble(ds).value;
            forall p, q :: 0 <= p < q < |calls| ==> calls[p].id != calls[q].id
  {
    FragmentsKept(ds);
    var a := AddAll(EMPTY, ds).value;
    hide AddAll, Assigned, Kept;
    IdsApart(a);
    var states := if AllIndexed(a.states) then Sorted(a.states) else a.states;
    if AllIndexed(a.states) {
      DistinctKeys(a);
      SortedIncreasing(a.states);
      hide Consistent, Sorted;
      SortedIdsApart(a.states, states);
    }
    hide Consistent, Sorted, AllIndexed, NoneIndexed;
    CallsSpell(states);
  }

  ghost predicate DifferentIds(states: seq<CallState>) {
    forall p, q :: 0 <= p < q < |states| && states[p].id.Some? ==> states[p].id != states[q].id
  }

  lemma IdsApart(a: Assembly)
    requires Consistent(a)
    ensures DifferentIds(a.states)
  {
    forall p, q | 0 <= p < q < |a.states| && a.states[p].id.Some? ensures a.states[p].id != a.states[q].id {
      ConsistentIsInjective(a, p, q);
    }
  }

  lemma SortedIdsApart(states: seq<CallState>, sorted: seq<CallState>)
    requires DifferentIds(states) && Increasing(sorted) && forall x :: x in sorted ==> x in states
    ensures DifferentIds(sorted)
  {
    forall p, q | 0 <= p < q < |sorted| && sorted[p].id.Some? ensures sorted[p].id != sorted[q].id {
      assert sorted[p] in sorted && sorted[q] in sorted;
      var i :| 0 <= i < |states| && states[i] == sorted[p];
      var j :| 0 <= j < |states| && states[j] == sorted[q];
      assert Key(sorted[p]) < Key(sorted[q]);
      assert i < j || j < i;
    }
  }

  // ---------------------------------------------------------------- indexed streams

  ghost predicate FullyIndexed(ds: seq<Delta>) {
    forall k :: 0 <= k < |ds| ==> ds[k].index.Some?
  }

  /** The deltas of one index, in stream order. */
  function OfIndex(ds: seq<Delta>, i: nat): (r: seq<Delta>)
    decreases |ds|
  {
    if ds == [] then []
    else OfIndex(ds[..|ds| - 1], i) + if Last(ds).index == Some(i) then [Last(ds)] else []
  }

  /** What one call's own deltas make, without looking at the rest of the stream. */
  function Collect(sub: seq<Delta>): (r: Result<CallState>)
    decreases |sub|
  {
    if sub == [] then Ok(BLANK)
    else
      var front := Collect(sub[..|sub| - 1]);
      if front.Err? then Err else Absorb(front.value, Last(sub))
  }

  function CallOf(ds: seq<Delta>, i: nat): (r: Result<CallState>) {
    Collect(OfIndex(ds, i))
  }

  ghost predicate SharesId(ds: seq<Delta>, i: nat, j: nat) {
    && i != j
    && CallOf(ds, i).Ok? && CallOf(ds, j).Ok?
    && CallOf(ds, i).value.id.Some? && CallOf(ds, i).value.id == CallOf(ds, j).value.id
  }

  /** When an indexed stream is sound: each call's deltas agree with each other, and no
      two calls have the same id. Nothing here depends on how calls are interleaved. */
  ghost predicate Sound(ds: seq<Delta>) {
    && (forall i: nat :: CallOf(ds, i).Ok?)
    && (forall i: nat, j: nat :: !SharesId(ds, i, j))
  }

  ghost predicate Mirrors(a: Assembly, ds: seq<Delta>) {
    && Consistent(a)
    && AllIndexed(a.states)
    && (forall i: nat :: i in a.byIndex <==> OfIndex(ds, i) != [])
    && (forall i: nat :: i in a.byIndex ==> CallOf(ds, i) == Ok(a.states[a.byIndex[i]]))
  }

  lemma CallOfSnoc(front: seq<Delta>, d: Delta, i: nat)
    ensures var ds := front + [d];
            if d.index == Some(i)
            then OfIndex(ds, i) != []
                 && CallOf(ds, i) == (if CallOf(front, i).Err? then Err else Absorb(CallOf(front, i).value, d))
            else OfIndex(ds, i) == OfIndex(front, i) && CallOf(ds, i) == CallOf(front, i)
  {
    hide Absorb;
    var ds := front + [d];
    assert ds[..|ds| - 1] == front && Last(ds) == d;
    if d.index == Some(i) {
      var sub := OfIndex(front, i);
      assert OfIndex(ds, i) == sub + [d];
      assert (sub + [d])[..|sub|] == sub && Last(sub + [d]) == d;
    }
  }

  /** A sound stream was sound all the way. */
  lemma SoundPrefix(front: seq<Delta>, d: Delta)
    requires d.index.Some? && Sound(front + [d])
    ensures Sound(front)
  {
    hide CallOf;
    var ds := front + [d];
    forall i: nat ensures CallOf(front, i).Ok? && Refines(CallOf(front, i).value, CallOf(ds, i).value) {
      assert CallOf(ds, i).Ok?;
      CallOfSnoc(front, d, i);
      if d.index == Some(i) { AbsorbIdentity(CallOf(front, i).value, d); }
    }
    hide Absorb;
    forall i: nat, j: nat ensures !SharesId(front, i, j) {
      assert !SharesId(ds, i, j);
    }
  }

  /** The index and id of a delta lead to the same call, to a new one, or to a refusal;
      in an indexed stream, to a refusal exactly when the id is another call's. */
  lemma IndexedAdd(a: Assembly, d: Delta)
    requires Consistent(a) && AllIndexed(a.states) && d.index.Some?
    ensures var i := d.index.value;
            var s := if i in a.byIndex then a.states[a.byIndex[i]] else BLANK;
            var taken := d.id.Some? && d.id.value in a.byId && (i !in a.byIndex || a.byId[d.id.value] != a.byIndex[i]);
            && (Add(a, d).Ok? <==> !taken && Absorb(s, d).Ok?)
            && (Add(a, d).Ok? ==>
                  && AllIndexed(Add(a, d).value.states)
                  && Add(a, d).value.byIndex.Keys == a.byIndex.Keys + {i}
                  && Add(a, d).value.states[Add(a, d).value.byIndex[i]] == Absorb(s, d).value
                  && forall j :: j in a.byIndex && j != i ==>
                       Add(a, d).value.states[Add(a, d).value.byIndex[j]] == a.states[a.byIndex[j]])
  {
    if Add(a, d).Ok? {
      AddKeepsConsistent(a, d);
      var p := Resolve(a, d.index, d.id).value;
      AbsorbIdentity(if p < |a.states| then a.states[p] else BLANK, d);
      AddChanges(a, d);
      ResolveFits(a, d.index, d.id);
    }
  }

  /** Taking one more delta of an indexed stream succeeds exactly when the stream stays
      sound. */
  lemma IndexedStep(a: Assembly, front: seq<Delta>, d: Delta)
    requires Mirrors(a, front) && Sound(front) && d.index.Some?
    ensures Add(a, d).Ok? <==> Sound(front + [d])
    ensures Add(a, d).Ok? ==> Mirrors(Add(a, d).value, front + [d])
  {
    hide CallOf, OfIndex, Add, Absorb;
    var i, ds := d.index.value, front + [d];
    var s := if i in a.byIndex then a.states[a.byIndex[i]] else BLANK;
    var taken := d.id.Some? && d.id.value in a.byId && (i !in a.byIndex || a.byId[d.id.value] != a.byIndex[i]);
    IndexedAdd(a, d);
    CallHere(a, front, i);
    CallOfSnoc(front, d, i);
    if taken {
      IdTaken(a, front, d);
    } else if Absorb(s, d).Ok? {
      IdFree(a, front, d);
      AddKeepsConsistent(a, d);
      MirrorsNext(a, Add(a, d).value, front, d);
    } else {
      assert CallOf(ds, i).Err?;
    }
  }

  lemma MirrorsNext(a: Assembly, b: Assembly, front: seq<Delta>, d: Delta)
    requires Mirrors(a, front) && d.index.Some? && Consistent(b) && AllIndexed(b.states)
    requires b.byIndex.Keys == a.byIndex.Keys + {d.index.value}
    requires CallOf(front + [d], d.index.value) == Ok(b.states[b.byIndex[d.index.value]])
    requires forall j :: j in a.byIndex && j != d.index.value ==> b.states[b.byIndex[j]] == a.states[a.byIndex[j]]
    ensures Mirrors(b, front + [d])
  {
    hide CallOf, OfIndex, Absorb;
    forall j: nat
      ensures j in b.byIndex <==> OfIndex(front + [d], j) != []
      ensures j in b.byIndex ==> CallOf(front + [d], j) == Ok(b.states[b.byIndex[j]])
    {
      CallOfSnoc(front, d, j);
      assert j in b.byIndex <==> j in a.byIndex || j == d.index.value;
      assert j in a.byIndex <==> OfIndex(front, j) != [];
    }
  }

  lemma CallHere(a: Assembly, ds: seq<Delta>, i: nat)
    requires Mirrors(a, ds)
    ensures CallOf(ds, i) == Ok(if i in a.byIndex then a.states[a.byIndex[i]] else BLANK)
  {
    hide Consistent;
    if i !in a.byIndex { assert OfIndex(ds, i) == []; }
  }

  lemma IdTaken(a: Assembly, front: seq<Delta>, d: Delta)
    requires Mirrors(a, front) && d.index.Some?
    requires var i := d.index.value;
             d.id.Some? && d.id.value in a.byId && (i !in a.byIndex || a.byId[d.id.value] != a.byIndex[i])
    requires CallOf(front, d.index.value).Ok?
    ensures !Sound(front + [d])
  {
    var i, ds, p := d.index.value, front + [d], a.byId[d.id.value];
    var j := a.states[p].index.value;
    assert a.byIndex[j] == p && j != i;
    CallHere(a, front, j);
    CallOfSnoc(front, d, i);
    CallOfSnoc(front, d, j);
    hide Consistent, OfIndex;
    if CallOf(ds, i).Ok? {
      AbsorbIdentity(CallOf(front, i).value, d);
      hide Absorb, CallOf;
      assert SharesId(ds, i, j);
    }
  }

  lemma IdFree(a: Assembly, front: seq<Delta>, d: Delta)
    requires Mirrors(a, front) && Sound(front) && d.index.Some?
    requires var i := d.index.value;
             !(d.id.Some? && d.id.value in a.byId && (i !in a.byIndex || a.byId[d.id.value] != a.byIndex[i]))
    requires CallOf(front + [d], d.index.value).Ok?
    ensures Sound(front + [d])
  {
    var i, ds := d.index.value, front + [d];
    CallOfSnoc(front, d, i);
    AbsorbIdentity(CallOf(front, i).value, d);
    forall j: nat ensures j != i ==> CallOf(ds, j) == CallOf(front, j) && !SharesId(ds, i, j) && !SharesId(ds, j, i) {
      CallOfSnoc(front, d, j);
      CallHere(a, front, j);
      CallHere(a, front, i);
      assert !SharesId(front, i, j);
    }
    hide CallOf, Absorb;
    forall j: nat, k: nat ensures !SharesId(ds, j, k) {
      assert !SharesId(front, j, k);
    }
  }

  /** An indexed stream is accepted exactly when it is sound, and each call is then what
      its own deltas make. */
  lemma {:induction false} IndexedStream(ds: seq<Delta>)
    requires FullyIndexed(ds)
    ensures AddAll(EMPTY, ds).Ok? <==> Sound(ds)
    ensures AddAll(EMPTY, ds).Ok? ==> Mirrors(AddAll(EMPTY, ds).value, ds)
    decreases |ds|
  {
    if ds == [] {
      assert forall i: nat :: CallOf([], i) == Ok(BLANK);
    } else {
      hide Add, Sound, Mirrors;
      var front, d := ds[..|ds| - 1], Last(ds);
      assert ds == front + [d];
      IndexedStream(front);
      if AddAll(EMPTY, front).Ok? {
        IndexedStep(AddAll(EMPTY, front).value, front, d);
      } else if Sound(ds) {
        SoundPrefix(front, d);
      }
    }
  }

  // ---------------------------------------------------------------- what an indexed stream says

  /** The name a delta gives; an empty one is none. */
  function GivenName(d: Delta): (name: Option<string>) {
    if d.body.Function? && d.body.name.Some? && d.body.name.value != "" then d.body.name else None
  }

  /** The text a delta adds to the arguments of its call. */
  function GivenText(d: Delta): (text: string) {
    if d.body.Function? && d.body.arguments.Text? then d.body.arguments.text else ""
  }

  ghost predicate Agree<T>(a: Option<T>, b: Option<T>) {
    a.Some? && b.Some? ==> a == b
  }

  /** Deltas that can belong to one call: no arguments that are not text, and one index, id
      and name at most. */
  ghost predicate Coherent(ds: seq<Delta>) {
    && (forall x :: x in ds ==> !(x.body.Function? && x.body.arguments.NotText?))
    && (forall x, y :: x in ds && y in ds ==>
          Agree(x.index, y.index) && Agree(x.id, y.id) && Agree(GivenName(x), GivenName(y)))
  }

  /** All that was ever given is known, and nothing else. */
  ghost predicate Knows(s: CallState, ds: seq<Delta>) {
    && (forall x :: x in ds ==>
          && (x.index.Some? ==> s.index == x.index)
          && (x.id.Some? ==> s.id == x.id)
          && (GivenName(x).Some? ==> s.name == GivenName(x)))
    && (s.index.Some? ==> exists x :: x in ds && x.index == s.index)
    && (s.id.Some? ==> exists x :: x in ds && x.id == s.id)
    && (s.name.Some? ==> exists x :: x in ds && GivenName(x) == s.name)
  }

  lemma AbsorbTells(s: CallState, front: seq<Delta>, d: Delta)
    requires Knows(s, front) && Coherent(front)
    ensures Absorb(s, d).Ok? <==> Coherent(front + [d])
    ensures Absorb(s, d).Ok? ==>
              && Knows(Absorb(s, d).value, front + [d])
              && Joined(Absorb(s, d).value.fragments) == Joined(s.fragments) + GivenText(d)
  {
    var ds := front + [d];
    assert d in ds && forall x :: x in ds <==> x in front || x == d;
    AbsorbOk(s, d);
    if Absorb(s, d).Ok? {
      AbsorbKnows(s, front, d);
      AbsorbText(s, d);
    }
    hide Absorb, Joined, GivenName;
  }

  lemma AbsorbOk(s: CallState, d: Delta)
    ensures Absorb(s, d).Ok? <==>
            (&& Agree(s.index, d.index) && Agree(s.id, d.id) && Agree(s.name, GivenName(d))
             && !(d.body.Function? && d.body.arguments.NotText?))
    ensures Absorb(s, d).Ok? ==>
              var t := Absorb(s, d).value;
              && t.index == (if d.index.Some? then d.index else s.index)
              && t.id == (if d.id.Some? then d.id else s.id)
              && t.name == (if GivenName(d).Some? then GivenName(d) else s.name)
  {
  }

  lemma AbsorbKnows(s: CallState, front: seq<Delta>, d: Delta)
    requires Knows(s, front) && Absorb(s, d).Ok?
    ensures Knows(Absorb(s, d).value, front + [d])
  {
    var ds := front + [d];
    assert d in ds && forall x :: x in ds <==> x in front || x == d;
    AbsorbOk(s, d);
    hide Absorb, GivenName;
  }

  lemma AbsorbText(s: CallState, d: Delta)
    requires Absorb(s, d).Ok?
    ensures Joined(Absorb(s, d).value.fragments) == Joined(s.fragments) + GivenText(d)
  {
    FlattenSnoc(s.fragments, GivenText(d));
    assert Absorb(s, d).value.fragments == if GivenText(d) == "" then s.fragments else s.fragments + [GivenText(d)];
    hide Flatten, Absorb, GivenText;
    assert Flatten(s.fragments) + "" == Flatten(s.fragments);
  }

  /** The texts of a call's deltas, one behind the other. */
  function Spoken(sub: seq<Delta>): (text: string)
    decreases |sub|
  {
    if sub == [] then "" else Spoken(sub[..|sub| - 1]) + GivenText(Last(sub))
  }

  lemma {:induction false} CollectTells(sub: seq<Delta>)
    ensures Collect(sub).Ok? <==> Coherent(sub)
    ensures Collect(sub).Ok? ==> Knows(Collect(sub).value, sub) && Joined(Collect(sub).value.fragments) == Spoken(sub)
    decreases |sub|
  {
    if sub == [] {
      assert Collect(sub) == Ok(BLANK) && Joined([]) == "";
    } else {
      var front, d := sub[..|sub| - 1], Last(sub);
      CollectTells(front);
      assert sub == front + [d];
      hide Absorb, Knows, Joined;
      if Collect(front).Ok? {
        hide Coherent;
        AbsorbTells(Collect(front).value, front, d);
      } else {
        NotCoherentLater(front, d);
      }
    }
  }

  lemma NotCoherentLater(front: seq<Delta>, d: Delta)
    requires !Coherent(front)
    ensures !Coherent(front + [d])
  {
    assert forall x :: x in front ==> x in front + [d];
  }

  lemma {:induction false} OfIndexHas(ds: seq<Delta>, i: nat)
    ensures forall x :: x in OfIndex(ds, i) <==> x in ds && x.index == Some(i)
    decreases |ds|
  {
    if ds != [] {
      OfIndexHas(ds[..|ds| - 1], i);
      assert ds == ds[..|ds| - 1] + [Last(ds)];
    }
  }

  /** The deltas of one index agree with each other, and those of two indices give no id
      in common. */
  ghost predicate Consonant(ds: seq<Delta>) {
    && (forall x :: x in ds ==> !(x.body.Function? && x.body.arguments.NotText?))
    && (forall x, y :: x in ds && y in ds && x.index == y.index ==>
          Agree(x.id, y.id) && Agree(GivenName(x), GivenName(y)))
    && (forall x, y :: x in ds && y in ds && x.index != y.index && x.id.Some? ==> x.id != y.id)
  }

  lemma CallTells(ds: seq<Delta>, i: nat)
    requires FullyIndexed(ds)
    ensures CallOf(ds, i).Ok? <==> Coherent(OfIndex(ds, i))
    ensures CallOf(ds, i).Ok? ==>
              && Knows(CallOf(ds, i).value, OfIndex(ds, i))
              && Joined(CallOf(ds, i).value.fragments) == Spoken(OfIndex(ds, i))
    ensures forall x :: x in OfIndex(ds, i) <==> x in ds && x.index == Some(i)
  {
    hide Coherent, Knows, Joined;
    CollectTells(OfIndex(ds, i));
    OfIndexHas(ds, i);
  }

  lemma IdShared(ds: seq<Delta>, i: nat, j: nat)
    requires FullyIndexed(ds) && i != j && CallOf(ds, i).Ok? && CallOf(ds, j).Ok?
    ensures SharesId(ds, i, j) <==>
            exists x, y :: x in ds && y in ds && x.index == Some(i) && y.index == Some(j) && x.id.Some? && x.id == y.id
  {
    CallTells(ds, i);
    CallTells(ds, j);
    hide CallOf, Coherent, Joined, FullyIndexed, GivenName;
    var s, t := CallOf(ds, i).value, CallOf(ds, j).value;
    if SharesId(ds, i, j) {
      var x :| x in OfIndex(ds, i) && x.id == s.id;
      var y :| y in OfIndex(ds, j) && y.id == t.id;
      assert x in ds && y in ds && x.index == Some(i) && y.index == Some(j) && x.id.Some? && x.id == y.id;
    }
  }

  lemma SoundTells(ds: seq<Delta>)
    requires FullyIndexed(ds)
    ensures Sound(ds) <==> Consonant(ds)
  {
    hide CallOf, Joined, Knows, GivenName, SharesId;
    if Consonant(ds) {
      forall i: nat ensures CallOf(ds, i).Ok? { CallTells(ds, i); }
      forall i: nat, j: nat ensures !SharesId(ds, i, j) {
        if i != j { IdShared(ds, i, j); } else { NotWithItself(ds, i); }
      }
    }
    if Sound(ds) {
      forall x, y | x in ds && y in ds
        ensures !(x.body.Function? && x.body.arguments.NotText?)
        ensures x.index == y.index ==> Agree(x.id, y.id) && Agree(GivenName(x), GivenName(y))
        ensures x.index != y.index && x.id.Some? ==> x.id != y.id
      {
        SoundPair(ds, x, y);
      }
    }
  }

  lemma NotWithItself(ds: seq<Delta>, i: nat)
    ensures !SharesId(ds, i, i)
  {
  }

  lemma SoundPair(ds: seq<Delta>, x: Delta, y: Delta)
    requires FullyIndexed(ds) && Sound(ds) && x in ds && y in ds
    ensures !(x.body.Function? && x.body.arguments.NotText?)
    ensures x.index == y.index ==> Agree(x.id, y.id) && Agree(GivenName(x), GivenName(y))
    ensures x.index != y.index && x.id.Some? ==> x.id != y.id
  {
    var i, j := x.index.value, y.index.value;
    hide CallOf, Joined, Knows, GivenName, SharesId;
    assert CallOf(ds, i).Ok? && CallOf(ds, j).Ok? && !SharesId(ds, i, j);
    CallTells(ds, i);
    if i != j { IdShared(ds, i, j); }
  }

  /** `calls` are what the deltas say: one call for each index that occurs, in the order of
      the indices, with the id and the name given for it and its texts joined. */
  ghost predicate SaysCalls(ds: seq<Delta>, order: seq<nat>, calls: seq<ToolCall>) {
    && |calls| == |order|
    && (forall p, q :: 0 <= p < q < |order| ==> order[p] < order[q])
    && (forall i :: i in order <==> exists x :: x in ds && x.index == Some(i))
    && (forall p :: 0 <= p < |order| ==> SaysCall(ds, order[p], calls[p]))
  }

  ghost predicate SaysCall(ds: seq<Delta>, i: nat, call: ToolCall) {
    && (exists x :: x in ds && x.index == Some(i) && x.id == Some(call.id))
    && (exists x :: x in ds && x.index == Some(i) && GivenName(x) == Some(call.name))
    && call.arguments == Spoken(OfIndex(ds, i))
  }

  /** Every index gets an id and a name from some delta. */
  ghost predicate Complete(ds: seq<Delta>) {
    forall x :: x in ds ==>
      && (exists y :: y in ds && y.index == x.index && y.id.Some?)
      && (exists y :: y in ds && y.index == x.index && GivenName(y).Some?)
  }

  /** What a state of the assembler stands for. */
  lemma StateTells(a: Assembly, ds: seq<Delta>, s: CallState)
    requires FullyIndexed(ds) && Mirrors(a, ds) && s in a.states
    ensures s.index.Some?
    ensures var i := s.index.value;
            && OfIndex(ds, i) != [] && Knows(s, OfIndex(ds, i)) && Joined(s.fragments) == Spoken(OfIndex(ds, i))
            && forall x :: x in OfIndex(ds, i) <==> x in ds && x.index == Some(i)
  {
    var p :| 0 <= p < |a.states| && a.states[p] == s;
    var i := s.index.value;
    assert i in a.byIndex && a.byIndex[i] == p;
    hide CallOf, OfIndex, Knows, Joined, Spoken, FullyIndexed;
    CallTells(ds, i);
  }

  lemma IndexHasState(a: Assembly, ds: seq<Delta>, x: Delta) returns (s: CallState)
    requires FullyIndexed(ds) && Mirrors(a, ds) && x in ds
    ensures s in a.states && s.index == x.index
  {
    var i := x.index.value;
    OfIndexHas(ds, i);
    assert OfIndex(ds, i) != [];
    s := a.states[a.byIndex[i]];
  }

  /** A state that is finished is a call of the stream, and one that is not lacks what
      no delta gave. */
  lemma StateFinishes(a: Assembly, ds: seq<Delta>, s: CallState)
    requires FullyIndexed(ds) && Mirrors(a, ds) && s in a.states
    ensures s.index.Some?
    ensures s.id.Some? && s.name.Some? ==>
              SaysCall(ds, s.index.value, ToolCall(s.id.value, s.name.value, Joined(s.fragments)))
    ensures Complete(ds) ==> s.id.Some? && s.name.Some?
    ensures exists x :: x in ds && x.index == s.index
  {
    StateTells(a, ds, s);
    hide Mirrors, FullyIndexed, OfIndex, Joined, Spoken, GivenName;
    var sub := OfIndex(ds, s.index.value);
    assert sub[0] in sub && sub[0] in ds;
    KnownSays(s, sub, ds);
    hide Knows, Complete, SaysCall;
  }

  lemma KnownSays(s: CallState, sub: seq<Delta>, ds: seq<Delta>)
    requires s.index.Some? && sub != [] && Knows(s, sub) && Joined(s.fragments) == Spoken(sub)
    requires sub == OfIndex(ds, s.index.value) && forall x :: x in sub <==> x in ds && x.index == s.index
    ensures s.id.Some? && s.name.Some? ==>
              SaysCall(ds, s.index.value, ToolCall(s.id.value, s.name.value, Joined(s.fragments)))
    ensures Complete(ds) ==> s.id.Some? && s.name.Some?
  {
    hide OfIndex, Joined, Spoken, GivenName;
    assert sub[0] in sub && sub[0] in ds;
  }

  lemma CompleteStates(a: Assembly, ds: seq<Delta>)
    requires FullyIndexed(ds) && Mirrors(a, ds)
    requires forall s :: s in a.states ==> s.id.Some? && s.name.Some?
    ensures Complete(ds)
  {
    hide Mirrors, FullyIndexed, OfIndex, Joined, Spoken, GivenName, Knows;
    forall x | x in ds
      ensures exists y :: y in ds && y.index == x.index && y.id.Some?
      ensures exists y :: y in ds && y.index == x.index && GivenName(y).Some?
    {
      var s := IndexHasState(a, ds, x);
      StateFinishes(a, ds, s);
      assert SaysCall(ds, s.index.value, ToolCall(s.id.value, s.name.value, Joined(s.fragments)));
    }
  }

  /** What becomes of an indexed stream, read off its deltas alone: it is accepted exactly
      when its calls agree with themselves, share no id and are complete, and the calls are
      then what the deltas say. */
  lemma StreamTells(ds: seq<Delta>) returns (order: seq<nat>)
    requires FullyIndexed(ds)
    ensures Assemble(ds).Ok? <==> Consonant(ds) && Complete(ds)
    ensures Assemble(ds).Ok? ==> SaysCalls(ds, order, Assemble(ds).value)
  {
    IndexedStream(ds);
    SoundTells(ds);
    hide Sound, Consonant, Complete, AddAll, SaysCalls, FullyIndexed;
    order := [];
    if AddAll(EMPTY, ds).Ok? {
      order := FinishedTells(AddAll(EMPTY, ds).value, ds);
    }
    hide Mirrors, Finish;
  }

  lemma FinishedTells(a: Assembly, ds: seq<Delta>) returns (order: seq<nat>)
    requires FullyIndexed(ds) && Mirrors(a, ds)
    ensures Finish(a).Ok? <==> Complete(ds)
    ensures Finish(a).Ok? ==> SaysCalls(ds, order, Finish(a).value)
  {
    assert Consistent(a) && AllIndexed(a.states);
    hide *;
    var sorted := Sorted(a.states);
    order := seq(|sorted|, p requires 0 <= p < |sorted| => Key(sorted[p]));
    SortedStates(a);
    CallsSpell(sorted);
    FinishIs(a);
    FinishedWhen(a, ds, sorted);
    if Finish(a).Ok? { CallsSay(a, ds, sorted, order, Finish(a).value); }
  }

  lemma FinishIs(a: Assembly)
    requires AllIndexed(a.states)
    ensures Finish(a) == Calls(Sorted(a.states))
  {
  }

  lemma CallsSay(a: Assembly, ds: seq<Delta>, sorted: seq<CallState>, order: seq<nat>, calls: seq<ToolCall>)
    requires FullyIndexed(ds) && Mirrors(a, ds) && |order| == |sorted| == |calls|
    requires forall s :: s in sorted <==> s in a.states
    requires forall p :: 0 <= p < |sorted| ==> sorted[p].index == Some(order[p])
    requires forall p, q :: 0 <= p < q < |order| ==> order[p] < order[q]
    requires forall p :: 0 <= p < |sorted| ==>
               && sorted[p].id.Some? && sorted[p].name.Some?
               && calls[p] == ToolCall(sorted[p].id.value, sorted[p].name.value, Joined(sorted[p].fragments))
    ensures SaysCalls(ds, order, calls)
  {
    hide Mirrors, FullyIndexed, SaysCall, Joined, Complete;
    OrderSays(a, ds, sorted, order);
    forall p | 0 <= p < |sorted| ensures SaysCall(ds, order[p], calls[p]) {
      assert sorted[p] in sorted;
      StateFinishes(a, ds, sorted[p]);
    }
  }

  lemma SortedStates(a: Assembly)
    requires Consistent(a) && AllIndexed(a.states)
    ensures var sorted := Sorted(a.states);
            && (forall p, q :: 0 <= p < q < |sorted| ==> Key(sorted[p]) < Key(sorted[q]))
            && (forall s :: s in sorted <==> s in a.states)
            && (forall p :: 0 <= p < |sorted| ==> sorted[p].index == Some(Key(sorted[p])))
  {
    DistinctKeys(a);
    SortedIncreasing(a.states);
    var sorted := Sorted(a.states);
    hide Sorted;
    forall p | 0 <= p < |sorted| ensures sorted[p].index == Some(Key(sorted[p])) {
      assert sorted[p] in sorted;
    }
  }

  lemma FinishedWhen(a: Assembly, ds: seq<Delta>, sorted: seq<CallState>)
    requires FullyIndexed(ds) && Mirrors(a, ds) && forall s :: s in sorted <==> s in a.states
    ensures (forall p :: 0 <= p < |sorted| ==> sorted[p].id.Some? && sorted[p].name.Some?) <==> Complete(ds)
  {
    hide Mirrors, FullyIndexed, Complete, SaysCall, Joined;
    if Complete(ds) {
      forall p | 0 <= p < |sorted| ensures sorted[p].id.Some? && sorted[p].name.Some? {
        assert sorted[p] in sorted;
        StateFinishes(a, ds, sorted[p]);
      }
    }
    if forall p :: 0 <= p < |sorted| ==> sorted[p].id.Some? && sorted[p].name.Some? {
      assert forall s :: s in a.states ==> s in sorted;
      CompleteStates(a, ds);
    }
  }

  lemma OrderSays(a: Assembly, ds: seq<Delta>, sorted: seq<CallState>, order: seq<nat>)
    requires FullyIndexed(ds) && Mirrors(a, ds) && |order| == |sorted|
    requires forall s :: s in sorted <==> s in a.states
    requires forall p :: 0 <= p < |sorted| ==> sorted[p].index == Some(order[p])
    ensures forall i :: i in order <==> exists x :: x in ds && x.index == Some(i)
  {
    hide Mirrors, FullyIndexed, GivenName;
    forall i | i in order ensures exists x :: x in ds && x.index == Some(i) {
      var p :| 0 <= p < |order| && order[p] == i;
      StateFinishes(a, ds, sorted[p]);
    }
    forall x | x in ds ensures x.index.Some? && x.index.value in order {
      var s := IndexHasState(a, ds, x);
      var p :| 0 <= p < |sorted| && sorted[p] == s;
      assert order[p] in order;
    }
  }

  /** The same deltas for every call, in the same order within each call. */
  ghost predicate SameCalls(ds: seq<Delta>, ds': seq<Delta>) {
    forall i: nat :: OfIndex(ds, i) == OfIndex(ds', i)
  }

  lemma MirrorsHave(a: Assembly, b: Assembly, ds: seq<Delta>, ds': seq<Delta>)
    requires Mirrors(a, ds) && Mirrors(b, ds') && SameCalls(ds, ds')
    ensures forall s :: s in a.states ==> s in b.states
  {
    forall s | s in a.states ensures s in b.states {
      var p :| 0 <= p < |a.states| && a.states[p] == s;
      var i := s.index.value;
      assert i in a.byIndex && a.byIndex[i] == p;
      assert OfIndex(ds, i) == OfIndex(ds', i);
      hide OfIndex, Collect;
      assert b.states[b.byIndex[i]] == s;
    }
  }

  /** However the calls of an indexed stream are interleaved, the outcome is the same:
      the same calls, or a refusal. */
  lemma InterleavingDoesNotMatter(ds: seq<Delta>, ds': seq<Delta>)
    requires FullyIndexed(ds) && FullyIndexed(ds') && SameCalls(ds, ds')
    ensures Assemble(ds) == Assemble(ds')
  {
    IndexedStream(ds);
    IndexedStream(ds');
    assert Sound(ds) <==> Sound(ds') by {
      assert forall i: nat {:trigger CallOf(ds, i)} {:trigger CallOf(ds', i)} ::
               OfIndex(ds, i) == OfIndex(ds', i) && CallOf(ds, i) == CallOf(ds', i);
      assert forall i: nat, j: nat :: SharesId(ds, i, j) == SharesId(ds', i, j);
    }
    if AddAll(EMPTY, ds).Ok? {
      var a, b := AddAll(EMPTY, ds).value, AddAll(EMPTY, ds').value;
      MirrorsHave(a, b, ds, ds');
      MirrorsHave(b, a, ds', ds);
      DistinctKeys(a);
      DistinctKeys(b);
      SortedIncreasing(a.states);
      SortedIncreasing(b.states);
      hide AddAll, Mirrors;
      IncreasingUnique(Sorted(a.states), Sorted(b.states));
      assert AllIndexed(a.states) && AllIndexed(b.states);
    }
  }

  lemma DistinctKeys(a: Assembly)
    requires Consistent(a) && AllIndexed(a.states)
    ensures forall p, q :: 0 <= p < q < |a.states| ==> Key(a.states[p]) != Key(a.states[q])
  {
    forall p, q | 0 <= p < q < |a.states| ensures Key(a.states[p]) != Key(a.states[q]) {
      ConsistentIsInjective(a, p, q);
    }
  }

  // ---------------------------------------------------------------- the assembler

  /** An index or id as it arrives: left out, usable, or of the wrong kind. */
  datatype Field<T> = Missing | Given(value: T) | Wrong

  datatype RawDelta = RawDelta(index: Field<nat>, id: Field<Id>, body: Body) {
    predicate Usable() {
      !index.Wrong? && !id.Wrong? && id != Given("")
    }

    function Checked(): (d: Delta) {
      Delta(if index.Given? then Some(index.value) else None, if id.Given? then Some(id.value) else None, body)
    }
  }

  function CheckedAll(raw: seq<RawDelta>): (ds: seq<Delta>) {
    seq(|raw|, k requires 0 <= k < |raw| => raw[k].Checked())
  }

  /** A batch is looked at as a whole before any of it is taken. */
  predicate Presentable(raw: seq<RawDelta>) {
    && (forall k :: 0 <= k < |raw| ==> raw[k].Usable())
    && (|raw| > 1 ==> forall k :: 0 <= k < |raw| ==> raw[k].Checked().Named())
  }

  lemma {:induction false} AddAllConcat(a: Assembly, ds: seq<Delta>, es: seq<Delta>)
    ensures AddAll(a, ds + es) == if AddAll(a, ds).Err? then Err else AddAll(AddAll(a, ds).value, es)
    decreases |es|
  {
    hide Add;
    if es == [] {
      assert ds + es == ds;
    } else {
      assert (ds + es)[..|ds + es| - 1] == ds + es[..|es| - 1];
      AddAllConcat(a, ds, es[..|es| - 1]);
    }
  }

  lemma AddAllNext(a: Assembly, ds: seq<Delta>, k: nat)
    requires k < |ds|
    ensures AddAll(a, ds[..k + 1]) == if AddAll(a, ds[..k]).Err? then Err else Add(AddAll(a, ds[..k]).value, ds[k])
  {
    hide Add;
    assert ds[..k + 1][..k] == ds[..k];
  }

  lemma {:induction false} AddAllStaysErr(a: Assembly, ds: seq<Delta>, k: nat)
    requires k <= |ds| && AddAll(a, ds[..k]).Err?
    ensures AddAll(a, ds).Err?
  {
    assert ds == ds[..k] + ds[k..];
    AddAllConcat(a, ds[..k], ds[k..]);
  }

  /** After a refusal the assembler is left as it was cut short; the caller drops it
      with the stream, so nothing is promised about it. */
  lemma CallsNext(states: seq<CallState>, p: nat)
    requires p < |states| && states[p].id.Some? && states[p].name.Some? && Calls(states[..p]).Ok?
    ensures Calls(states[..p + 1]) ==
            Ok(Calls(states[..p]).value
               + [ToolCall(states[p].id.value, states[p].name.value, Joined(states[p].fragments))])
  {
    assert states[..p + 1][..p] == states[..p] && Last(states[..p + 1]) == states[p];
  }

  class ToolCallStreamAssembler {
    var states: seq<CallState>
    var byIndex: map<nat, nat>
    var byId: map<Id, nat>

    function View(): (a: Assembly)
      reads this
    {
      Assembly(states, byIndex, byId)
    }

    constructor ()
      ensures View() == EMPTY && Consistent(View())
    {
      states, byIndex, byId := [], map[], map[];
    }

    /** The new call, when there is one, is in the list before it has an identity. */
    method ResolveState(index: Option<nat>, id: Option<Id>) returns (p: Result<nat>)
      requires Consistent(View())
      modifies this`states
      ensures p == Resolve(old(View()), index, id)
      ensures states == if p.Ok? && p.value == |old(states)| then old(states) + [BLANK] else old(states)
    {
      var found := if index.Some? && index.value in byIndex then Some(byIndex[index.value]) else None;
      var named := if id.Some? && id.value in byId then Some(byId[id.value]) else None;
      if found.Some? && named.Some? && found != named { return Err; }
      if found.Some? { return Ok(found.value); }
      if named.Some? { return Ok(named.value); }
      if index.None? && id.None? {
        if |states| == 1 { return Ok(0); }
        return Err;
      }
      if |states| == 1 {
        var only := states[0];
        if (index.None? && only.id.None?) || (id.None? && only.index.None?) { return Err; }
      }
      states := states + [BLANK];
      p := Ok(|states| - 1);
    }

    method BindIdentity(p: nat, index: Option<nat>, id: Option<Id>) returns (ok: bool)
      requires p < |states|
      modifies this
      ensures ok <==> !Clash(old(states)[p].index, index) && !Clash(old(states)[p].id, id)
      ensures ok ==>
        && states == old(states)[p := old(states)[p].(index := Merge(old(states)[p].index, index),
                                                      id := Merge(old(states)[p].id, id))]
        && byIndex == (if index.Some? then old(byIndex)[index.value := p] else old(byIndex))
        && byId == (if id.Some? then old(byId)[id.value := p] else old(byId))
    {
      if index.Some? {
        if states[p].index.Some? && states[p].index != index { return false; }
        states := states[p := states[p].(index := index)];
        byIndex := byIndex[index.value := p];
      }
      if id.Some? {
        if states[p].id.Some? && states[p].id != id { return false; }
        states := states[p := states[p].(id := id)];
        byId := byId[id.value := p];
      }
      ok := true;
    }

    method TakeFunction(p: nat, body: Body) returns (ok: bool)
      requires p < |states|
      modifies this`states
      ensures ok <==> AbsorbBody(old(states)[p], body).Ok?
      ensures ok ==> states == old(states)[p := AbsorbBody(old(states)[p], body).value]
    {
      if body.NoFunction? { return true; }
      var state := states[p];
      if body.name.Some? && body.name.value != "" {
        if state.name.Some? && state.name != body.name { return false; }
        state := state.(name := body.name);
      }
      match body.arguments {
        case NoArguments =>
        case NotText => return false;
        case Text(text) =>
          if text != "" { state := state.(fragments := state.fragments + [text]); }
      }
      assert state.fragments == states[p].fragments + Fragments(body);
      states := states[p := state];
      ok := true;
    }

    method AddDelta(d: Delta) returns (ok: bool)
      requires Consistent(View())
      modifies this
      ensures ok <==> Add(old(View()), d).Ok?
      ensures ok ==> View() == Add(old(View()), d).value && Consistent(View())
    {
      hide AbsorbBody, IndexFits, IdFits;
      ghost var before := View();
      var p := ResolveState(d.index, d.id);
      if p.Err? { return false; }
      ResolveFits(before, d.index, d.id);
      ghost var s := if p.value < |before.states| then before.states[p.value] else BLANK;
      assert states[p.value] == s;
      var bound := BindIdentity(p.value, d.index, d.id);
      if !bound { return false; }
      ok := TakeFunction(p.value, d.body);
      if !ok { return; }
      assert states == if p.value < |before.states| then before.states[p.value := states[p.value]]
                       else before.states + [states[p.value]];
      AddKeepsConsistent(before, d);
    }

    method AddBatch(raw: seq<RawDelta>) returns (ok: bool)
      requires Consistent(View())
      modifies this
      ensures ok <==> Presentable(raw) && AddAll(old(View()), CheckedAll(raw)).Ok?
      ensures ok ==> View() == AddAll(old(View()), CheckedAll(raw)).value && Consistent(View())
    {
      hide Add, Consistent;
      if exists k :: 0 <= k < |raw| && !raw[k].Usable() { return false; }
      var ds := CheckedAll(raw);
      if |ds| > 1 && exists k :: 0 <= k < |ds| && !ds[k].Named() {
        assert !Presentable(raw);
        return false;
      }
      forall k | 0 <= k < |raw| && |raw| > 1 ensures raw[k].Checked().Named() { assert ds[k].Named(); }
      assert Presentable(raw);
      ghost var before := View();
      for k := 0 to |ds|
        invariant AddAll(before, ds[..k]) == Ok(View()) && Consistent(View())
      {
        AddAllNext(before, ds, k);
        var taken := AddDelta(ds[k]);
        if !taken {
          AddAllStaysErr(before, ds, k + 1);
          return false;
        }
      }
      assert ds[..|ds|] == ds;
      ok := true;
    }

    method FinishStream() returns (calls: Result<seq<ToolCall>>)
      ensures calls == Finish(View())
    {
      var indexed := exists p :: 0 <= p < |states| && states[p].index.Some?;
      var all := forall p :: 0 <= p < |states| ==> states[p].index.Some?;
      if indexed && !all { return Err; }
      var ordered := if all then Sorted(states) else states;
      var result := [];
      assert Calls(ordered[..0]) == Ok(result);
      hide Calls, Sorted;
      for p := 0 to |ordered|
        invariant Calls(ordered[..p]) == Ok(result)
      {
        if ordered[p].id.None? || ordered[p].name.None? {
          CallsSpell(ordered);
          return Err;
        }
        CallsNext(ordered, p);
        result := result + [ToolCall(ordered[p].id.value, ordered[p].name.value, Joined(ordered[p].fragments))];
      }
      assert ordered[..|ordered|] == ordered;
      calls := Ok(result);
    }
  }
}
