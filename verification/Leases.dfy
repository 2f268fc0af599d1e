/** Write grants that sandboxes of many processes share through durable lease
    records. Every operation runs under one mutex, so operations are atomic steps,
    but each may stop after any of its effects: a revoke or a removal raises, or the
    process dies. A record write succeeds or its process dies. Process identity is
    exact and records are readable. */
module Leases {
  import opened Common

  type Path = string
  type Sid = string
  type Marker = nat
  type Process = nat

  datatype Lease = Lease(path: Path, sid: Sid, owner: Process, managed: bool, released: bool, temporary: bool)

  /** What is given from outside: capability SIDs belong to the sandbox alone; only
      private temporary roots may ever be removed. */
  datatype Config = Config(isCapability: Sid -> bool, isTemporaryRoot: Path -> bool)

  /** `external` are the grants that were there before any lease asked for them,
      `held` the leases that were acquired and not yet given back. */
  datatype State = State(
    records: map<Marker, Lease>,
    grants: set<(Path, Sid)>,
    existing: set<Path>,
    born: set<Process>,
    alive: set<Process>,
    external: set<(Path, Sid)>,
    held: set<Marker>)

  datatype Effect =
    | Revoke(path: Path, sid: Sid)
    | RemoveTree(path: Path)
    | Unlink(marker: Marker)
    | Write(marker: Marker, lease: Lease)
    | Grant(path: Path, sid: Sid)

  function Do(st: State, e: Effect): (r: State) {
    match e
    case Revoke(p, s) => st.(grants := st.grants - {(p, s)}, external := st.external - {(p, s)})
    case RemoveTree(p) => st.(existing := st.existing - {p},
                              grants := (set g | g in st.grants && g.0 != p),
                              external := (set g | g in st.external && g.0 != p))
    case Unlink(m) => st.(records := st.records - {m}, held := st.held - {m})
    case Write(m, l) => st.(records := st.records[m := l])
    case Grant(p, s) => st.(grants := st.grants + {(p, s)})
  }

  function DoAll(st: State, effects: seq<Effect>): (r: State)
    decreases |effects|
  {
    if effects == [] then st else Do(DoAll(st, effects[..|effects| - 1]), Last(effects))
  }

  predicate Active(st: State, l: Lease) {
    !l.released && l.owner in st.alive
  }

  predicate Shares(l: Lease, p: Path, s: Sid) {
    l.path == p && l.sid == s
  }

  // ---------------------------------------------------------------- invariant

  predicate Recorded(st: State, p: Path, s: Sid) {
    exists m :: m in st.records && Shares(st.records[m], p, s) && st.records[m].managed
  }

  ghost predicate GrantsRecorded(st: State) {
    forall p, s :: (p, s) in st.grants && (p, s) !in st.external ==> Recorded(st, p, s)
  }

  ghost predicate ActiveGranted(st: State) {
    forall m :: m in st.records && Active(st, st.records[m]) ==> (st.records[m].path, st.records[m].sid) in st.grants
  }

  ghost predicate ManagedIsOurs(st: State) {
    forall m :: m in st.records ==>
      var l := st.records[m];
      && (l.managed ==> (l.path, l.sid) !in st.external)
      && (!l.managed && Active(st, l) ==> (l.path, l.sid) in st.external)
  }

  /** All leases of one grant agree on whether it is managed. */
  ghost predicate GroupsAgree(st: State) {
    forall m, n ::
      m in st.records && n in st.records && Shares(st.records[m], st.records[n].path, st.records[n].sid) ==>
      st.records[m].managed == st.records[n].managed
  }

  ghost predicate HeldActive(st: State) {
    forall m :: m in st.held ==> m in st.records && Active(st, st.records[m])
  }

  ghost predicate World(cfg: Config, st: State) {
    && st.external <= st.grants
    && (forall g :: g in st.grants ==> g.0 in st.existing)
    && (forall g :: g in st.external ==> !cfg.isCapability(g.1))
    && st.alive <= st.born
    && (forall m :: m in st.records ==> st.records[m].owner in st.born)
  }

  ghost predicate Inv(cfg: Config, st: State) {
    World(cfg, st) && GrantsRecorded(st) && ActiveGranted(st) && ManagedIsOurs(st) && GroupsAgree(st) && HeldActive(st)
  }

  // ---------------------------------------------------------------- effects

  /** No lease on the grant is active. */
  ghost predicate Abandoned(st: State, p: Path, s: Sid) {
    forall m :: m in st.records && Shares(st.records[m], p, s) ==> !Active(st, st.records[m])
  }

  lemma RevokeKeeps(cfg: Config, st: State, p: Path, s: Sid)
    requires Inv(cfg, st) && Abandoned(st, p, s) && (p, s) !in st.external
    ensures Inv(cfg, Do(st, Revoke(p, s)))
  {
    var st' := Do(st, Revoke(p, s));
    forall q, t | (q, t) in st'.grants && (q, t) !in st'.external ensures Recorded(st', q, t) {
      var m :| m in st.records && Shares(st.records[m], q, t) && st.records[m].managed;
      assert m in st'.records;
    }
  }

  lemma RemoveTreeKeeps(cfg: Config, st: State, p: Path)
    requires Inv(cfg, st)
    requires forall m :: m in st.records && st.records[m].path == p ==> !Active(st, st.records[m])
    ensures Inv(cfg, Do(st, RemoveTree(p)))
  {
    var st' := Do(st, RemoveTree(p));
    forall q, t | (q, t) in st'.grants && (q, t) !in st'.external ensures Recorded(st', q, t) {
      assert (q, t) !in st.external;
      var m :| m in st.records && Shares(st.records[m], q, t) && st.records[m].managed;
      assert m in st'.records;
    }
  }

  /** Without this record, its grant is still recorded or needs no record. */
  ghost predicate Dispensable(st: State, m: Marker)
    requires m in st.records
  {
    var l := st.records[m];
    && !Active(st, l)
    && ((l.path, l.sid) in st.grants && (l.path, l.sid) !in st.external ==>
          exists n :: n in st.records && n != m && Shares(st.records[n], l.path, l.sid))
  }

  lemma UnlinkKeeps(cfg: Config, st: State, m: Marker)
    requires Inv(cfg, st) && m in st.records && Dispensable(st, m)
    ensures Inv(cfg, Do(st, Unlink(m)))
    ensures Do(st, Unlink(m)) == st.(records := st.records - {m})
  {
    var st', l := Do(st, Unlink(m)), st.records[m];
    forall q, t | (q, t) in st'.grants && (q, t) !in st'.external ensures Recorded(st', q, t) {
      if Shares(l, q, t) {
        var n :| n in st.records && n != m && Shares(st.records[n], l.path, l.sid);
        assert n in st'.records;
        var k :| k in st.records && Shares(st.records[k], q, t) && st.records[k].managed;
        assert st.records[n].managed == st.records[k].managed;
      } else {
        var n :| n in st.records && Shares(st.records[n], q, t) && st.records[n].managed;
        assert n != m && n in st'.records;
      }
    }
  }

  // ---------------------------------------------------------------- reaping one path

  predicate Known(st: State, ms: seq<Marker>) {
    forall m :: m in ms ==> m in st.records
  }

  function StaleOf(st: State, ms: seq<Marker>): (r: seq<Marker>)
    requires Known(st, ms)
    ensures forall m :: m in r <==> m in ms && !Active(st, st.records[m])
  {
    if ms == [] then [] else (if Active(st, st.records[ms[0]]) then [] else [ms[0]]) + StaleOf(st, ms[1..])
  }

  /** The SIDs of these records, each once, in order of first appearance. */
  function SidsOf(st: State, ms: seq<Marker>): (r: seq<Sid>)
    requires Known(st, ms)
    decreases |ms|
  {
    if ms == [] then []
    else
      var front := SidsOf(st, ms[..|ms| - 1]);
      var s := st.records[Last(ms)].sid;
      if s in front then front else front + [s]
  }

  lemma {:induction false} SidListed(st: State, ms: seq<Marker>, m: Marker)
    requires m in ms && Known(st, ms)
    ensures st.records[m].sid in SidsOf(st, ms)
    decreases |ms|
  {
    var front := ms[..|ms| - 1];
    assert ms == front + [Last(ms)];
    if m != Last(ms) { SidListed(st, front, m); }
  }

  /** The grant of a group is revoked when all its leases are stale and it is managed. */
  predicate RevokesGroup(st: State, p: Path, ms: seq<Marker>, s: Sid)
    requires Known(st, ms)
  {
    && (forall m :: m in ms && st.records[m].sid == s ==> !Active(st, st.records[m]))
    && (exists m :: m in ms && st.records[m].sid == s && st.records[m].managed)
    && p in st.existing
  }

  function Revokes(st: State, p: Path, ms: seq<Marker>, sids: seq<Sid>): (r: seq<Effect>)
    requires Known(st, ms)
    decreases |sids|
  {
    if sids == [] then []
    else
      var front := Revokes(st, p, ms, sids[..|sids| - 1]);
      if RevokesGroup(st, p, ms, Last(sids)) then front + [Revoke(p, Last(sids))] else front
  }

  /** The whole path goes when all its leases are stale and temporary. */
  predicate Removes(cfg: Config, st: State, p: Path, ms: seq<Marker>, redirected: bool)
    requires Known(st, ms)
  {
    && (forall m :: m in ms ==> !Active(st, st.records[m]) && st.records[m].temporary)
    && cfg.isTemporaryRoot(p) && p in st.existing && !redirected
  }

  function Unlinks(ms: seq<Marker>): (r: seq<Effect>)
    ensures |r| == |ms|
  {
    seq(|ms|, i requires 0 <= i < |ms| => Unlink(ms[i]))
  }

  /** What reaping the records `ms` of path `p` does, in order. */
  function ReapPlan(cfg: Config, st: State, p: Path, ms: seq<Marker>, redirected: bool): (r: seq<Effect>)
    requires Known(st, ms)
  {
    var stale := StaleOf(st, ms);
    if stale == [] then []
    else
      Revokes(st, p, ms, SidsOf(st, ms))
      + (if Removes(cfg, st, p, ms, redirected) then [RemoveTree(p)] else [])
      + Unlinks(stale)
  }

  /** `ms` lists the records of path `p`. */
  ghost predicate Lists(st: State, p: Path, ms: seq<Marker>) {
    Distinct(ms) && forall m :: m in ms <==> m in st.records && st.records[m].path == p
  }

  lemma {:induction false} DoAllConcat(st: State, a: seq<Effect>, b: seq<Effect>)
    ensures DoAll(st, a + b) == DoAll(DoAll(st, a), b)
    decreases |b|
  {
    if b == [] {
      assert a + b == a;
    } else {
      assert (a + b)[..|a + b| - 1] == a + b[..|b| - 1];
      DoAllConcat(st, a, b[..|b| - 1]);
    }
  }

  lemma {:induction false} StaleDistinct(st: State, ms: seq<Marker>)
    requires Distinct(ms) && Known(st, ms)
    ensures Distinct(StaleOf(st, ms))
  {
    if ms != [] {
      assert forall i :: 0 <= i < |ms[1..]| ==> ms[1..][i] == ms[i + 1];
      StaleDistinct(st, ms[1..]);
    }
  }

  ghost predicate SoundRevoke(st: State, p: Path, e: Effect) {
    e.Revoke? && e.path == p && Abandoned(st, p, e.sid) && (p, e.sid) !in st.external
  }

  ghost predicate AllSound(st: State, p: Path, revs: seq<Effect>) {
    forall i :: 0 <= i < |revs| ==> SoundRevoke(st, p, revs[i])
  }

  /** Only grants of `p` were revoked, and none of an active or external lease. */
  ghost predicate OnlyRevoked(st: State, st': State, p: Path) {
    && st' == st.(grants := st'.grants)
    && st'.grants <= st.grants
    && forall q, s :: (q, s) in st.grants && (q, s) !in st'.grants ==>
       q == p && Abandoned(st, p, s) && (p, s) !in st.external
  }

  lemma {:induction false} RevokesKeep(cfg: Config, st: State, p: Path, revs: seq<Effect>)
    requires Inv(cfg, st)
    requires AllSound(st, p, revs)
    ensures var st' := DoAll(st, revs);
            Inv(cfg, st') && OnlyRevoked(st, st', p) && forall s :: Revoke(p, s) in revs ==> (p, s) !in st'.grants
    decreases |revs|
  {
    if revs != [] {
      var front, e := revs[..|revs| - 1], Last(revs);
      assert revs == front + [e];
      RevokesKeep(cfg, st, p, front);
      var mid := DoAll(st, front);
      assert Abandoned(mid, p, e.sid);
      RevokeKeeps(cfg, mid, p, e.sid);
      assert Do(mid, e).external == st.external;
    }
  }

  function MarkerSet(ms: seq<Marker>): (r: set<Marker>) {
    set m | m in ms
  }

  /** Once these records are gone, their grants are recorded elsewhere or not there. */
  ghost predicate AllDispensable(st: State, ms: seq<Marker>) {
    forall m :: m in ms ==>
      m in st.records && !Active(st, st.records[m])
      && (var l := st.records[m];
          (l.path, l.sid) in st.grants && (l.path, l.sid) !in st.external ==>
            exists n :: n in st.records && n !in ms && Shares(st.records[n], l.path, l.sid))
  }

  lemma {:induction false} UnlinksKeep(cfg: Config, st: State, ms: seq<Marker>)
    requires Inv(cfg, st) && Distinct(ms) && AllDispensable(st, ms)
    ensures var st' := DoAll(st, Unlinks(ms));
            Inv(cfg, st') && st' == st.(records := st.records - MarkerSet(ms))
    decreases |ms|
  {
    hide Inv, AllDispensable;
    if ms == [] {
      assert st.records - MarkerSet(ms) == st.records;
    } else {
      var front, m := ms[..|ms| - 1], Last(ms);
      assert ms == front + [m];
      assert Unlinks(ms)[..|ms| - 1] == Unlinks(front);
      FrontDispensable(st, ms);
      UnlinksKeep(cfg, st, front);
      var mid := DoAll(st, Unlinks(front));
      LastDispensable(st, mid, ms);
      UnlinkKeeps(cfg, mid, m);
      assert mid.records - {m} == st.records - MarkerSet(ms);
    }
  }

  lemma FrontDispensable(st: State, ms: seq<Marker>)
    requires ms != [] && AllDispensable(st, ms)
    ensures AllDispensable(st, ms[..|ms| - 1])
  {
    var front := ms[..|ms| - 1];
    forall m | m in front
      ensures var l := st.records[m];
              (l.path, l.sid) in st.grants && (l.path, l.sid) !in st.external ==>
                exists n :: n in st.records && n !in front && Shares(st.records[n], l.path, l.sid)
    {
      assert m in ms;
      assert forall n :: n !in ms ==> n !in front;
    }
  }

  lemma LastDispensable(st: State, mid: State, ms: seq<Marker>)
    requires ms != [] && Distinct(ms) && AllDispensable(st, ms)
    requires mid == st.(records := st.records - MarkerSet(ms[..|ms| - 1]))
    ensures Last(ms) in mid.records && Dispensable(mid, Last(ms))
  {
    var m := Last(ms);
    var l := st.records[m];
    if (l.path, l.sid) in st.grants && (l.path, l.sid) !in st.external {
      var n :| n in st.records && n !in ms && Shares(st.records[n], l.path, l.sid);
      assert n in mid.records && n != m;
    }
  }

  lemma {:induction false} RevokesSound(cfg: Config, st: State, p: Path, ms: seq<Marker>, sids: seq<Sid>)
    requires Inv(cfg, st) && Lists(st, p, ms)
    ensures var revs := Revokes(st, p, ms, sids);
            && AllSound(st, p, revs)
            && (forall s :: s in sids && RevokesGroup(st, p, ms, s) ==> Revoke(p, s) in revs)
    decreases |sids|
  {
    if sids != [] {
      var front, s := sids[..|sids| - 1], Last(sids);
      assert sids == front + [s];
      RevokesSound(cfg, st, p, ms, front);
      if RevokesGroup(st, p, ms, s) {
        GroupSound(cfg, st, p, ms, s);
      }
      hide SoundRevoke;
    }
  }

  lemma GroupSound(cfg: Config, st: State, p: Path, ms: seq<Marker>, s: Sid)
    requires Inv(cfg, st) && Lists(st, p, ms) && RevokesGroup(st, p, ms, s)
    ensures SoundRevoke(st, p, Revoke(p, s))
  {
    hide GrantsRecorded, ActiveGranted, GroupsAgree, HeldActive, World;
  }

  /** What a reap of `p` may have done, wherever it stopped. */
  ghost predicate Reaped(cfg: Config, st: State, st': State, p: Path) {
    && st'.born == st.born && st'.alive == st.alive && st'.held == st.held
    && (forall m :: m in st'.records ==> m in st.records && st'.records[m] == st.records[m])
    && (forall m :: m in st.records && m !in st'.records ==> st.records[m].path == p && !Active(st, st.records[m]))
    && st'.grants <= st.grants && st'.external <= st.external && st'.existing <= st.existing
    && (forall q :: q in st.existing && q !in st'.existing ==> q == p && cfg.isTemporaryRoot(p))
    && (forall g :: g in st.grants && g !in st'.grants ==> g.0 == p)
    && (forall g :: g in st.external && g !in st'.external ==> g.0 !in st'.existing)
  }

  /** A whole reap of `p`: its stale records are gone, and so are its grants that no
      active lease and nothing external needs. */
  ghost predicate ReapedFully(st: State, st': State, p: Path) {
    && (forall m :: m in st'.records && st'.records[m].path == p ==> m in st.records && Active(st, st.records[m]))
    && (forall s :: (p, s) in st'.grants && (p, s) !in st'.external ==> Needed(st', p, s))
  }

  ghost predicate Needed(st: State, p: Path, s: Sid) {
    exists m :: m in st.records && Shares(st.records[m], p, s) && st.records[m].managed && Active(st, st.records[m])
  }

  function Removal(cfg: Config, st: State, p: Path, ms: seq<Marker>, redirected: bool): (r: seq<Effect>)
    requires Known(st, ms)
  {
    if Removes(cfg, st, p, ms, redirected) then [RemoveTree(p)] else []
  }

  /** Grants of abandoned managed groups of `p` are revoked. */
  ghost predicate NoAbandoned(st: State, p: Path) {
    forall s :: (p, s) in st.grants && (p, s) !in st.external ==> !Abandoned(st, p, s)
  }

  lemma RevokesClear(cfg: Config, st: State, p: Path, ms: seq<Marker>)
    requires Inv(cfg, st) && Lists(st, p, ms)
    ensures var st' := DoAll(st, Revokes(st, p, ms, SidsOf(st, ms)));
            Inv(cfg, st') && OnlyRevoked(st, st', p) && NoAbandoned(st', p)
  {
    var sids := SidsOf(st, ms);
    var revs := Revokes(st, p, ms, sids);
    RevokesSound(cfg, st, p, ms, sids);
    RevokesKeep(cfg, st, p, revs);
    var st' := DoAll(st, revs);
    forall s | (p, s) in st'.grants && (p, s) !in st'.external ensures !Abandoned(st', p, s) {
      if Abandoned(st', p, s) {
        AbandonedRevoked(cfg, st, p, ms, s);
        assert false;
      }
    }
  }

  lemma AbandonedRevoked(cfg: Config, st: State, p: Path, ms: seq<Marker>, s: Sid)
    requires Inv(cfg, st) && Lists(st, p, ms)
    requires (p, s) in st.grants && (p, s) !in st.external && Abandoned(st, p, s)
    ensures Revoke(p, s) in Revokes(st, p, ms, SidsOf(st, ms))
  {
    RevokesSound(cfg, st, p, ms, SidsOf(st, ms));
    hide ActiveGranted, GroupsAgree, HeldActive;
    var m :| m in st.records && Shares(st.records[m], p, s) && st.records[m].managed;
    SidListed(st, ms, m);
    assert RevokesGroup(st, p, ms, s);
  }

  /** The state in front of the unlinks. */
  lemma RemovalClear(cfg: Config, st: State, p: Path, ms: seq<Marker>, redirected: bool)
    requires Inv(cfg, st) && Lists(st, p, ms)
    ensures var st' := DoAll(st, Revokes(st, p, ms, SidsOf(st, ms)) + Removal(cfg, st, p, ms, redirected));
            Inv(cfg, st') && Reaped(cfg, st, st', p) && st'.records == st.records && NoAbandoned(st', p)
  {
    var revs, removal := Revokes(st, p, ms, SidsOf(st, ms)), Removal(cfg, st, p, ms, redirected);
    RevokesClear(cfg, st, p, ms);
    DoAllConcat(st, revs, removal);
    var mid := DoAll(st, revs);
    OnlyRevokedReaps(cfg, st, mid, p);
    if removal == [] {
      assert DoAll(mid, removal) == mid;
    } else {
      assert removal[..0] == [] && DoAll(mid, removal) == Do(mid, RemoveTree(p));
      RemovalStep(cfg, st, mid, p, ms);
    }
  }

  lemma RemovalStep(cfg: Config, st: State, mid: State, p: Path, ms: seq<Marker>)
    requires Inv(cfg, mid) && OnlyRevoked(st, mid, p) && Lists(st, p, ms) && cfg.isTemporaryRoot(p)
    requires forall m :: m in ms ==> !Active(st, st.records[m])
    ensures var st' := Do(mid, RemoveTree(p));
            Inv(cfg, st') && Reaped(cfg, st, st', p) && st'.records == st.records && NoAbandoned(st', p)
  {
    RemoveTreeKeeps(cfg, mid, p);
    hide Inv;
  }

  lemma OnlyRevokedReaps(cfg: Config, st: State, st': State, p: Path)
    requires OnlyRevoked(st, st', p)
    ensures Reaped(cfg, st, st', p)
  {
    hide Abandoned;
    forall g | g in st.grants && g !in st'.grants ensures g.0 == p {
      assert g == (g.0, g.1);
    }
  }

  lemma NothingStale(cfg: Config, st: State, p: Path, ms: seq<Marker>)
    requires Inv(cfg, st) && Lists(st, p, ms) && StaleOf(st, ms) == []
    ensures ReapedFully(st, st, p)
  {
    forall m | m in st.records && st.records[m].path == p ensures Active(st, st.records[m]) {
      assert m in ms && m !in StaleOf(st, ms);
    }
    forall s | (p, s) in st.grants && (p, s) !in st.external ensures Needed(st, p, s) {
      var m :| m in st.records && Shares(st.records[m], p, s) && st.records[m].managed;
      assert m in ms && m !in StaleOf(st, ms);
    }
  }

  /** A granted group that is not abandoned has an active managed lease. */
  lemma StillNeeded(cfg: Config, st: State, p: Path, s: Sid) returns (n: Marker)
    requires Inv(cfg, st) && NoAbandoned(st, p) && (p, s) in st.grants && (p, s) !in st.external
    ensures n in st.records && Shares(st.records[n], p, s) && st.records[n].managed && Active(st, st.records[n])
  {
    hide World, ActiveGranted, ManagedIsOurs, HeldActive;
    n :| n in st.records && Shares(st.records[n], p, s) && Active(st, st.records[n]);
    var m :| m in st.records && Shares(st.records[m], p, s) && st.records[m].managed;
    assert st.records[m].managed == st.records[n].managed;
  }

  lemma UnlinkPhase(cfg: Config, st: State, mid: State, p: Path, ms: seq<Marker>, j: nat)
    requires Inv(cfg, mid) && Reaped(cfg, st, mid, p) && mid.records == st.records && NoAbandoned(mid, p)
    requires Lists(st, p, ms) && j <= |StaleOf(st, ms)|
    ensures var st' := DoAll(mid, Unlinks(StaleOf(st, ms)[..j]));
            Inv(cfg, st') && Reaped(cfg, st, st', p) && (j == |StaleOf(st, ms)| ==> ReapedFully(st, st', p))
  {
    var stale := StaleOf(st, ms);
    var gone := stale[..j];
    StaleDistinct(st, ms);
    forall m | m in gone
      ensures m in mid.records && !Active(mid, mid.records[m])
      ensures (mid.records[m].path, mid.records[m].sid) in mid.grants
              && (mid.records[m].path, mid.records[m].sid) !in mid.external
              ==> exists n ::
                    n in mid.records && n !in gone && Shares(mid.records[n], mid.records[m].path, mid.records[m].sid)
    {
      assert m in stale;
      var l := mid.records[m];
      if (l.path, l.sid) in mid.grants && (l.path, l.sid) !in mid.external {
        var n := StillNeeded(cfg, mid, p, l.sid);
        assert n !in stale;
      }
    }
    assert AllDispensable(mid, gone);
    UnlinksKeep(cfg, mid, gone);
    UnlinkedReaps(cfg, st, mid, p, ms, gone);
    if j == |stale| {
      assert gone == stale;
      UnlinkedFully(cfg, st, mid, p, ms);
    }
  }

  lemma UnlinkedReaps(cfg: Config, st: State, mid: State, p: Path, ms: seq<Marker>, gone: seq<Marker>)
    requires Reaped(cfg, st, mid, p) && mid.records == st.records && Lists(st, p, ms)
    requires forall m :: m in gone ==> m in StaleOf(st, ms)
    ensures Reaped(cfg, st, mid.(records := mid.records - MarkerSet(gone)), p)
  {
  }

  lemma UnlinkedFully(cfg: Config, st: State, mid: State, p: Path, ms: seq<Marker>)
    requires Inv(cfg, mid) && Reaped(cfg, st, mid, p) && mid.records == st.records && NoAbandoned(mid, p)
    requires Lists(st, p, ms)
    ensures ReapedFully(st, mid.(records := mid.records - MarkerSet(StaleOf(st, ms))), p)
  {
    var st' := mid.(records := mid.records - MarkerSet(StaleOf(st, ms)));
    forall s | (p, s) in st'.grants && (p, s) !in st'.external ensures Needed(st', p, s) {
      var n := StillNeeded(cfg, mid, p, s);
      assert n !in StaleOf(st, ms);
      assert n in st'.records;
    }
    hide Inv, NoAbandoned;
    forall m | m in st'.records && st'.records[m].path == p ensures Active(st, st.records[m]) {
      assert m in ms && m !in StaleOf(st, ms);
    }
  }

  /** Reaping keeps the invariant wherever it stops, and touches only stale leases. */
  lemma ReapKeeps(cfg: Config, st: State, p: Path, ms: seq<Marker>, redirected: bool, k: nat)
    requires Inv(cfg, st) && Lists(st, p, ms)
    requires k <= |ReapPlan(cfg, st, p, ms, redirected)|
    ensures var plan := ReapPlan(cfg, st, p, ms, redirected);
            var st' := DoAll(st, plan[..k]);
            Inv(cfg, st') && Reaped(cfg, st, st', p) && (k == |plan| ==> ReapedFully(st, st', p))
  {
    hide Inv, Reaped, ReapedFully, Revokes, Removes, SidsOf, Unlinks;
    if StaleOf(st, ms) == [] {
      NothingStale(cfg, st, p, ms);
      ReapedSelf(cfg, st, p);
    } else {
      ReapPrefix(cfg, st, p, ms, redirected, k);
    }
  }

  lemma ReapedSelf(cfg: Config, st: State, p: Path)
    ensures Reaped(cfg, st, st, p)
  {
  }

  lemma ReapRevoking(cfg: Config, st: State, p: Path, ms: seq<Marker>, k: nat)
    requires Inv(cfg, st) && Lists(st, p, ms) && k <= |Revokes(st, p, ms, SidsOf(st, ms))|
    ensures var st' := DoAll(st, Revokes(st, p, ms, SidsOf(st, ms))[..k]);
            Inv(cfg, st') && Reaped(cfg, st, st', p)
  {
    var revs := Revokes(st, p, ms, SidsOf(st, ms));
    RevokesSound(cfg, st, p, ms, SidsOf(st, ms));
    hide Inv, Reaped, OnlyRevoked, Lists, SidsOf, Revokes, DoAll, SoundRevoke;
    RevokesKeep(cfg, st, p, revs[..k]);
    OnlyRevokedReaps(cfg, st, DoAll(st, revs[..k]), p);
  }

  lemma PlanPrefix(a: seq<Effect>, b: seq<Effect>, ms: seq<Marker>, k: nat)
    requires |b| <= 1 && k <= |a + b + Unlinks(ms)|
    ensures k <= |a| ==> (a + b + Unlinks(ms))[..k] == a[..k]
    ensures k > |a| ==> k >= |a + b| && (a + b + Unlinks(ms))[..k] == (a + b) + Unlinks(ms[..k - |a + b|])
  {
  }

  lemma ReapPrefix(cfg: Config, st: State, p: Path, ms: seq<Marker>, redirected: bool, k: nat)
    requires Inv(cfg, st) && Lists(st, p, ms) && StaleOf(st, ms) != []
    requires k <= |ReapPlan(cfg, st, p, ms, redirected)|
    ensures var plan := ReapPlan(cfg, st, p, ms, redirected);
            var st' := DoAll(st, plan[..k]);
            Inv(cfg, st') && Reaped(cfg, st, st', p) && (k == |plan| ==> ReapedFully(st, st', p))
  {
    hide Inv, Reaped, ReapedFully, Removes, SidsOf, Lists, DoAll, Revokes, StaleOf, Unlinks;
    ListedKnown(st, p, ms);
    var plan, stale := ReapPlan(cfg, st, p, ms, redirected), StaleOf(st, ms);
    var revs, removal := Revokes(st, p, ms, SidsOf(st, ms)), Removal(cfg, st, p, ms, redirected);
    assert plan == revs + removal + Unlinks(stale);
    assert |removal| <= 1;
    hide ReapPlan, Removal, Known;
    PlanPrefix(revs, removal, stale, k);
    if k <= |revs| {
      ReapRevoking(cfg, st, p, ms, k);
    } else {
      ReapUnlinking(cfg, st, p, ms, redirected, k - |revs + removal|);
    }
  }

  lemma ReapUnlinking(cfg: Config, st: State, p: Path, ms: seq<Marker>, redirected: bool, j: nat)
    requires Inv(cfg, st) && Lists(st, p, ms) && j <= |StaleOf(st, ms)|
    ensures var revs, removal := Revokes(st, p, ms, SidsOf(st, ms)), Removal(cfg, st, p, ms, redirected);
            var st' := DoAll(st, (revs + removal) + Unlinks(StaleOf(st, ms)[..j]));
            Inv(cfg, st') && Reaped(cfg, st, st', p) && (j == |StaleOf(st, ms)| ==> ReapedFully(st, st', p))
  {
    hide Inv, Reaped, ReapedFully, Removes, SidsOf, NoAbandoned, Unlinks;
    var before := Revokes(st, p, ms, SidsOf(st, ms)) + Removal(cfg, st, p, ms, redirected);
    RemovalClear(cfg, st, p, ms, redirected);
    DoAllConcat(st, before, Unlinks(StaleOf(st, ms)[..j]));
    UnlinkPhase(cfg, st, DoAll(st, before), p, ms, j);
  }

  // ---------------------------------------------------------------- operations as steps

  /** How an acquisition ends. `partial`: the grant reached the system although the
      call raised or the process died. */
  datatype Ending =
    | StopsReaping(cut: nat)
    | DiesGranting(partial: bool)
    | RollsBack(partial: bool, undone: nat)
    | Succeeds

  datatype Step =
    | Acquire(owner: Process, marker: Marker, path: Path, sid: Sid, temporary: bool,
              order: seq<Marker>, redirected: bool, ending: Ending)
    | Release(marker: Marker, order: seq<Marker>, redirected: bool, cut: nat)
    | ReleaseDies(marker: Marker)
    | Reap(path: Path, order: seq<Marker>, redirected: bool, cut: nat)
    | Spawn(process: Process)
    | Die(process: Process)
    | CreatePath(path: Path)
    | GrantOutside(path: Path, sid: Sid)

  /** Death of a process; the leases it held are not held any more. */
  function Kill(st: State, process: Process): (r: State) {
    st.(alive := st.alive - {process},
        held := (set m | m in st.held && !(m in st.records && st.records[m].owner == process)))
  }

  predicate Occupied(st: State, p: Path, s: Sid) {
    exists m :: m in st.records && Shares(st.records[m], p, s)
  }

  /** Whether a new lease on the grant must see to its revocation. */
  predicate ManagedFor(cfg: Config, st: State, p: Path, s: Sid) {
    if Occupied(st, p, s) then exists m :: m in st.records && Shares(st.records[m], p, s) && st.records[m].managed
    else cfg.isCapability(s) || (p, s) !in st.grants
  }

  function NewLease(cfg: Config, st: State, a: Step): (l: Lease)
    requires a.Acquire?
  {
    Lease(a.path, a.sid, a.owner, ManagedFor(cfg, st, a.path, a.sid), false, a.temporary)
  }

  function Rollback(m: Marker, l: Lease): (r: seq<Effect>) {
    [Write(m, l.(released := true))] + (if l.managed then [Revoke(l.path, l.sid)] else []) + [Unlink(m)]
  }

  function Release1(st: State, m: Marker): (r: State)
    requires m in st.records
  {
    Do(st, Write(m, st.records[m].(released := true))).(held := st.held - {m})
  }

  /** Behind the reaping, the acquisition writes its record first; only the first
      lease of a grant asks the system for it. */
  function AcquireEnd(cfg: Config, st: State, a: Step): (r: State)
    requires a.Acquire?
  {
    var l := NewLease(cfg, st, a);
    var wrote := Do(st, Write(a.marker, l));
    var asked := Do(wrote, Grant(a.path, a.sid));
    match a.ending
    case StopsReaping(_) => st
    case DiesGranting(partial) => Kill(if partial then asked else wrote, a.owner)
    case RollsBack(partial, undone) =>
      var undo := Rollback(a.marker, l);
      DoAll(if partial then asked else wrote, undo[..if undone <= |undo| then undone else |undo|])
    case Succeeds => (if Occupied(st, a.path, a.sid) then wrote else asked).(held := st.held + {a.marker})
  }

  function Cut(plan: seq<Effect>, cut: nat): (r: seq<Effect>) {
    plan[..if cut <= |plan| then cut else |plan|]
  }

  /** The requirements of an acquisition, once the path is reaped. */
  ghost predicate CanEnd(st: State, a: Step)
    requires a.Acquire?
  {
    match a.ending
    case StopsReaping(_) => true
    case DiesGranting(partial) => partial ==> !Occupied(st, a.path, a.sid) && a.path in st.existing
    case RollsBack(partial, undone) => undone > 0 && !Occupied(st, a.path, a.sid) && (partial ==> a.path in st.existing)
    case Succeeds => Occupied(st, a.path, a.sid) || a.path in st.existing
  }

  ghost predicate Enabled(cfg: Config, st: State, step: Step) {
    match step
    case Acquire(owner, m, p, s, _, order, redirected, ending) =>
      && owner in st.alive && m !in st.records && Lists(st, p, order)
      && (var st1 := DoAll(st, ReapPlan(cfg, st, p, order, redirected));
          CanEnd(st1, step))
    case Release(m, order, _, _) => m in st.records && Lists(Release1(st, m), st.records[m].path, order)
    case ReleaseDies(m) => m in st.records
    case Reap(p, order, _, _) => Lists(st, p, order)
    case Spawn(process) => process !in st.born
    case Die(_) => true
    case CreatePath(p) => p !in st.existing
    case GrantOutside(p, s) => p in st.existing && !cfg.isCapability(s)
  }

  function Next(cfg: Config, st: State, step: Step): (r: State)
    requires Enabled(cfg, st, step)
  {
    match step
    case Acquire(_, _, p, _, _, order, redirected, ending) =>
      var plan := ReapPlan(cfg, st, p, order, redirected);
      if ending.StopsReaping? then DoAll(st, Cut(plan, ending.cut)) else AcquireEnd(cfg, DoAll(st, plan), step)
    case Release(m, order, redirected, cut) =>
      var st1 := Release1(st, m);
      DoAll(st1, Cut(ReapPlan(cfg, st1, st.records[m].path, order, redirected), cut))
    case ReleaseDies(m) => Kill(st, st.records[m].owner)
    case Reap(p, order, redirected, cut) => DoAll(st, Cut(ReapPlan(cfg, st, p, order, redirected), cut))
    case Spawn(process) => st.(born := st.born + {process}, alive := st.alive + {process})
    case Die(process) => Kill(st, process)
    case CreatePath(p) => st.(existing := st.existing + {p})
    case GrantOutside(p, s) => GrantedOutside(st, p, s)
  }

  /** A grant from outside for a pair that a managed record covers cannot be told from the
      sandbox's own. */
  function GrantedOutside(st: State, p: Path, s: Sid): (r: State) {
    st.(grants := st.grants + {(p, s)},
        external := if Recorded(st, p, s) then st.external else st.external + {(p, s)})
  }

  // ---------------------------------------------------------------- steps keep the invariant

  lemma KillKeeps(cfg: Config, st: State, process: Process)
    requires Inv(cfg, st)
    ensures Inv(cfg, Kill(st, process))
  {
    var st' := Kill(st, process);
    forall p, s | (p, s) in st'.grants && (p, s) !in st'.external ensures Recorded(st', p, s) {
      var m :| m in st.records && Shares(st.records[m], p, s) && st.records[m].managed;
      assert m in st'.records;
    }
  }

  /** The new lease agrees with the leases beside it. */
  ghost predicate Fits(st: State, l: Lease) {
    && (if l.managed then (l.path, l.sid) !in st.external else (l.path, l.sid) in st.external)
    && (forall m :: m in st.records && Shares(st.records[m], l.path, l.sid) ==> st.records[m].managed == l.managed)
  }

  /** Only active leases are left on the path, so the new one fits. */
  lemma ManagedFits(cfg: Config, st: State, a: Step)
    requires Inv(cfg, st) && a.Acquire?
    requires forall m :: m in st.records && st.records[m].path == a.path ==> Active(st, st.records[m])
    ensures Fits(st, NewLease(cfg, st, a))
  {
    var p, s := a.path, a.sid;
    if Occupied(st, p, s) {
      var m :| m in st.records && Shares(st.records[m], p, s);
      assert forall n :: n in st.records && Shares(st.records[n], p, s) ==>
             st.records[n].managed == st.records[m].managed;
      assert ManagedFor(cfg, st, p, s) == st.records[m].managed;
    } else if (p, s) in st.grants {
      assert !Recorded(st, p, s);
    }
  }

  /** A fresh record, with or without its grant. */
  lemma AddRecordKeeps(cfg: Config, st: State, m: Marker, l: Lease, granted: bool)
    requires Inv(cfg, st) && m !in st.records && Fits(st, l) && l.owner in st.born
    requires granted ==> l.path in st.existing
    requires Active(st, l) ==> granted || (l.path, l.sid) in st.grants
    ensures var st' := Do(st, Write(m, l));
            Inv(cfg, if granted then Do(st', Grant(l.path, l.sid)) else st')
  {
    var st1 := Do(st, Write(m, l));
    var st' := if granted then Do(st1, Grant(l.path, l.sid)) else st1;
    AddRecordGrants(st, st', m, l);
    AddRecordAgrees(st, st', m, l);
    hide GrantsRecorded, GroupsAgree;
  }

  lemma AddRecordGrants(st: State, st': State, m: Marker, l: Lease)
    requires GrantsRecorded(st) && m !in st.records && Fits(st, l)
    requires st'.records == st.records[m := l] && st'.external == st.external
             && st'.grants <= st.grants + {(l.path, l.sid)}
    ensures GrantsRecorded(st')
  {
    forall p, s | (p, s) in st'.grants && (p, s) !in st'.external ensures Recorded(st', p, s) {
      if (p, s) == (l.path, l.sid) {
        assert m in st'.records && Shares(st'.records[m], p, s) && st'.records[m].managed;
      } else {
        var n :| n in st.records && Shares(st.records[n], p, s) && st.records[n].managed;
        assert n in st'.records && st'.records[n] == st.records[n];
      }
    }
  }

  lemma AddRecordAgrees(st: State, st': State, m: Marker, l: Lease)
    requires GroupsAgree(st) && m !in st.records && Fits(st, l) && st'.records == st.records[m := l]
    ensures GroupsAgree(st')
  {
  }

  lemma ReleaseKeeps(cfg: Config, st: State, m: Marker)
    requires Inv(cfg, st) && m in st.records
    ensures Inv(cfg, Release1(st, m))
  {
    var st' := Release1(st, m);
    forall p, s | (p, s) in st'.grants && (p, s) !in st'.external ensures Recorded(st', p, s) {
      var n :| n in st.records && Shares(st.records[n], p, s) && st.records[n].managed;
      assert n in st'.records;
    }
    assert GroupsAgree(st') by {
      assert forall n :: n in st'.records ==> n in st.records && st'.records[n].managed == st.records[n].managed
                                              && st'.records[n].path == st.records[n].path
                                              && st'.records[n].sid == st.records[n].sid;
    }
  }

  lemma OutsideKeeps(cfg: Config, st: State, p: Path, s: Sid)
    requires Inv(cfg, st) && p in st.existing && !cfg.isCapability(s)
    ensures Inv(cfg, GrantedOutside(st, p, s))
  {
    var st' := GrantedOutside(st, p, s);
    forall q, t | (q, t) in st'.grants && (q, t) !in st'.external ensures Recorded(st', q, t) {
      var n :| n in st.records && Shares(st.records[n], q, t) && st.records[n].managed;
      assert n in st'.records;
    }
  }

  lemma SpawnKeeps(cfg: Config, st: State, process: Process)
    requires Inv(cfg, st) && process !in st.born
    ensures Inv(cfg, st.(born := st.born + {process}, alive := st.alive + {process}))
  {
    var st' := st.(born := st.born + {process}, alive := st.alive + {process});
    forall p, s | (p, s) in st'.grants && (p, s) !in st'.external ensures Recorded(st', p, s) {
      var m :| m in st.records && Shares(st.records[m], p, s) && st.records[m].managed;
      assert m in st'.records;
    }
    assert forall m :: m in st.records ==> Active(st', st.records[m]) == Active(st, st.records[m]);
  }

  lemma CreateKeeps(cfg: Config, st: State, p: Path)
    requires Inv(cfg, st)
    ensures Inv(cfg, st.(existing := st.existing + {p}))
  {
    var st' := st.(existing := st.existing + {p});
    forall q, s | (q, s) in st'.grants && (q, s) !in st'.external ensures Recorded(st', q, s) {
      var m :| m in st.records && Shares(st.records[m], q, s) && st.records[m].managed;
      assert m in st'.records;
    }
  }

  /** The grant is gone, recorded, or external, wherever the rollback stops. */
  lemma RollbackKeeps(cfg: Config, st: State, m: Marker, l: Lease, partial: bool, k: nat)
    requires Inv(cfg, st) && m !in st.records && Fits(st, l) && l.owner in st.born && !l.released
    requires !Occupied(st, l.path, l.sid) && (partial ==> l.path in st.existing)
    requires 0 < k <= |Rollback(m, l)|
    ensures var wrote := Do(st, Write(m, l));
            var st' := DoAll(if partial then Do(wrote, Grant(l.path, l.sid)) else wrote, Rollback(m, l)[..k]);
            && Inv(cfg, st') && st'.external == st.external && st'.existing == st.existing && st'.alive == st.alive
            && st'.held == st.held
            && (forall n :: n in st.records ==> n in st'.records && st'.records[n] == st.records[n])
  {
    var wrote, undo, r := Do(st, Write(m, l)), Rollback(m, l), l.(released := true);
    var tried := if partial then Do(wrote, Grant(l.path, l.sid)) else wrote;
    var st1 := Do(tried, Write(m, r));
    AddRecordKeeps(cfg, st, m, r, partial);
    assert st1 == (if partial then Do(Do(st, Write(m, r)), Grant(l.path, l.sid)) else Do(st, Write(m, r))) by {
      assert st.records[m := l][m := r] == st.records[m := r];
    }
    DoAllFirst(tried, undo, k);
    hide Inv;
    if k > 1 {
      RollbackTail(cfg, st, st1, m, l, k);
    }
  }

  lemma DoAllFirst(st: State, effects: seq<Effect>, k: nat)
    requires 0 < k <= |effects|
    ensures DoAll(st, effects[..k]) == DoAll(Do(st, effects[0]), effects[1..k])
    ensures k == 1 ==> DoAll(st, effects[..k]) == Do(st, effects[0])
  {
    assert effects[..k] == [effects[0]] + effects[1..k];
    DoAllConcat(st, [effects[0]], effects[1..k]);
    assert DoAll(st, [effects[0]]) == Do(st, effects[0]) by {
      assert [effects[0]][..0] == [];
    }
  }

  lemma RollbackTail(cfg: Config, st: State, st1: State, m: Marker, l: Lease, k: nat)
    requires m !in st.records && Fits(st, l) && !Occupied(st, l.path, l.sid)
    requires Inv(cfg, st1) && m !in st.held
    requires st1.records == st.records[m := l.(released := true)]
             && st1 == st.(records := st1.records, grants := st1.grants)
    requires 1 < k <= |Rollback(m, l)|
    ensures var st' := DoAll(st1, Rollback(m, l)[1..k]);
            && Inv(cfg, st') && st'.external == st.external && st'.existing == st.existing && st'.alive == st.alive
            && st'.held == st.held
            && (forall n :: n in st.records ==> n in st'.records && st'.records[n] == st.records[n])
  {
    var tail := Rollback(m, l)[1..];
    assert Rollback(m, l)[1..k] == tail[..k - 1];
    DoAllFirst(st1, tail, k - 1);
    hide Inv, DoAll;
    if l.managed {
      assert tail == [Revoke(l.path, l.sid), Unlink(m)];
      OnlyReleased(st, st1, m, l);
      hide Abandoned, Occupied;
      RevokeKeeps(cfg, st1, l.path, l.sid);
      var st2 := Do(st1, Revoke(l.path, l.sid));
      if k == 3 {
        UnlinkKeeps(cfg, st2, m);
        assert tail[1..2] == [Unlink(m)];
        DoAllFirst(st2, [Unlink(m)], 1);
        assert [Unlink(m)][..1] == [Unlink(m)];
      }
    } else {
      assert tail == [Unlink(m)];
      UnlinkKeeps(cfg, st1, m);
    }
  }

  lemma OnlyReleased(st: State, st1: State, m: Marker, l: Lease)
    requires !Occupied(st, l.path, l.sid) && st1.records == st.records[m := l.(released := true)]
    ensures Abandoned(st1, l.path, l.sid)
  {
  }

  /** `step` gives lease `m` back, or ends its owner. */
  predicate EndsLease(st: State, step: Step, m: Marker) {
    match step
    case Acquire(owner, _, _, _, _, _, _, ending) =>
      ending.DiesGranting? && m in st.records && st.records[m].owner == owner
    case Release(n, _, _, _) => n == m
    case ReleaseDies(n) => m in st.records && n in st.records && st.records[m].owner == st.records[n].owner
    case Die(process) => m in st.records && st.records[m].owner == process
    case _ => false
  }

  /** Held leases stay held until given back; external grants stay as long as their
      path does, and only private temporary roots are ever removed. */
  ghost predicate Respects(cfg: Config, st: State, step: Step, st': State) {
    && (forall m :: m in st.held && !EndsLease(st, step, m) ==>
          m in st'.held && m in st.records && m in st'.records && st'.records[m] == st.records[m])
    && (forall g :: g in st.external ==> g in st'.external || g.0 !in st'.existing)
    && (forall p :: p in st.existing ==> p in st'.existing || cfg.isTemporaryRoot(p))
  }

  lemma ReapedRespects(cfg: Config, st: State, step: Step, st1: State, st': State, p: Path)
    requires Inv(cfg, st) && Reaped(cfg, st1, st', p)
    requires st1 == st || (step.Release? && step.marker in st.records && st1 == Release1(st, step.marker))
    ensures Respects(cfg, st, step, st')
  {
    hide World, GrantsRecorded, ActiveGranted, ManagedIsOurs, GroupsAgree;
  }

  /** The process dies behind its write: its record stays, owned by a dead process. */
  lemma DyingKeeps(cfg: Config, st: State, m: Marker, l: Lease, partial: bool)
    requires Inv(cfg, st) && m !in st.records && Fits(st, l) && l.owner in st.born
    requires partial ==> l.path in st.existing
    ensures var wrote := Do(st, Write(m, l));
            Inv(cfg, Kill(if partial then Do(wrote, Grant(l.path, l.sid)) else wrote, l.owner))
    ensures m !in st.held
  {
    KillKeeps(cfg, st, l.owner);
    assert m !in st.held;
    KillCommutes(st, m, l, l.owner, partial);
    hide Inv;
    AddRecordKeeps(cfg, Kill(st, l.owner), m, l, partial);
  }

  lemma SucceedingKeeps(cfg: Config, st: State, m: Marker, l: Lease)
    requires Inv(cfg, st) && m !in st.records && Fits(st, l) && l.owner in st.alive && !l.released
    requires Occupied(st, l.path, l.sid) || l.path in st.existing
    requires forall n :: n in st.records && st.records[n].path == l.path ==> Active(st, st.records[n])
    ensures var wrote := Do(st, Write(m, l));
            var asked := if Occupied(st, l.path, l.sid) then wrote else Do(wrote, Grant(l.path, l.sid));
            Inv(cfg, asked.(held := st.held + {m}))
  {
    var occupied, wrote := Occupied(st, l.path, l.sid), Do(st, Write(m, l));
    if occupied {
      var n :| n in st.records && Shares(st.records[n], l.path, l.sid);
      assert Active(st, st.records[n]);
    }
    AddRecordKeeps(cfg, st, m, l, !occupied);
    hide Inv;
    HoldKeeps(cfg, if occupied then wrote else Do(wrote, Grant(l.path, l.sid)), m);
  }

  lemma AcquireEndKeeps(cfg: Config, st: State, a: Step)
    requires Inv(cfg, st) && a.Acquire? && a.owner in st.alive && a.marker !in st.records
    requires forall m :: m in st.records && st.records[m].path == a.path ==> Active(st, st.records[m])
    requires CanEnd(st, a)
    ensures Inv(cfg, AcquireEnd(cfg, st, a)) && Respects(cfg, st, a, AcquireEnd(cfg, st, a))
    ensures AcquireEnd(cfg, st, a).existing == st.existing
  {
    hide Inv, ManagedFor, Occupied, Fits, Active;
    var l, m := NewLease(cfg, st, a), a.marker;
    ManagedFits(cfg, st, a);
    HeldRecorded(cfg, st);
    match a.ending
    case StopsReaping(_) =>
    case DiesGranting(partial) =>
      DyingKeeps(cfg, st, m, l, partial);
      DyingRespects(cfg, st, a, partial);
    case RollsBack(partial, undone) =>
      var undo := Rollback(m, l);
      RollbackKeeps(cfg, st, m, l, partial, if undone <= |undo| then undone else |undo|);
    case Succeeds =>
      SucceedingKeeps(cfg, st, m, l);
  }

  lemma HeldRecorded(cfg: Config, st: State)
    requires Inv(cfg, st)
    ensures st.alive <= st.born && forall m :: m in st.held ==> m in st.records
  {
    hide GrantsRecorded, ActiveGranted, ManagedIsOurs, GroupsAgree;
  }

  lemma DyingRespects(cfg: Config, st: State, a: Step, partial: bool)
    requires a.Acquire? && a.ending == DiesGranting(partial) && a.marker !in st.records
    requires forall m :: m in st.held ==> m in st.records
    ensures Respects(cfg, st, a, AcquireEnd(cfg, st, a)) && AcquireEnd(cfg, st, a).existing == st.existing
  {
    hide ManagedFor, Occupied;
  }

  lemma HoldKeeps(cfg: Config, st: State, m: Marker)
    requires Inv(cfg, st) && m in st.records && Active(st, st.records[m])
    ensures Inv(cfg, st.(held := st.held + {m}))
  {
    var st' := st.(held := st.held + {m});
    forall p, s | (p, s) in st'.grants && (p, s) !in st'.external ensures Recorded(st', p, s) {
      var n :| n in st.records && Shares(st.records[n], p, s) && st.records[n].managed;
      assert n in st'.records;
    }
  }

  lemma KillCommutes(st: State, m: Marker, l: Lease, process: Process, partial: bool)
    requires m !in st.records && m !in st.held
    ensures var wrote, wrote' := Do(st, Write(m, l)), Do(Kill(st, process), Write(m, l));
            && Kill(wrote, process) == wrote'
            && Kill(Do(wrote, Grant(l.path, l.sid)), process) == Do(wrote', Grant(l.path, l.sid))
  {
    assert Kill(Do(st, Write(m, l)), process).held == Kill(st, process).held;
  }

  /** Every step of every process, wherever it stops, keeps the invariant. */
  lemma StepKeepsInv(cfg: Config, st: State, step: Step)
    requires Inv(cfg, st) && Enabled(cfg, st, step)
    ensures Inv(cfg, Next(cfg, st, step)) && Respects(cfg, st, step, Next(cfg, st, step))
  {
    match step
    case Acquire(owner, m, p, s, _, order, redirected, ending) =>
      AcquireKeeps(cfg, st, step);
    case Release(m, order, redirected, cut) =>
      var st1 := Release1(st, m);
      var p := st.records[m].path;
      ReleaseKeeps(cfg, st, m);
      var plan := ReapPlan(cfg, st1, p, order, redirected);
      ReapKeeps(cfg, st1, p, order, redirected, |Cut(plan, cut)|);
      ReapedRespects(cfg, st, step, st1, DoAll(st1, Cut(plan, cut)), p);
    case ReleaseDies(m) =>
      KillKeeps(cfg, st, st.records[m].owner);
      KillRespects(cfg, st, step, st.records[m].owner);
    case Reap(p, order, redirected, cut) =>
      var plan := ReapPlan(cfg, st, p, order, redirected);
      ReapKeeps(cfg, st, p, order, redirected, |Cut(plan, cut)|);
      ReapedRespects(cfg, st, step, st, DoAll(st, Cut(plan, cut)), p);
    case Spawn(process) =>
      SpawnKeeps(cfg, st, process);
    case Die(process) =>
      KillKeeps(cfg, st, process);
      KillRespects(cfg, st, step, process);
    case CreatePath(p) =>
      CreateKeeps(cfg, st, p);
      assert HeldActive(st);
    case GrantOutside(p, s) =>
      OutsideKeeps(cfg, st, p, s);
      assert HeldActive(st);
  }

  lemma KillRespects(cfg: Config, st: State, step: Step, process: Process)
    requires Inv(cfg, st)
    requires step == Die(process)
             || (step.ReleaseDies? && step.marker in st.records && st.records[step.marker].owner == process)
    ensures Respects(cfg, st, step, Kill(st, process))
  {
    hide World, GrantsRecorded, ActiveGranted, ManagedIsOurs, GroupsAgree;
  }

  lemma AcquireKeeps(cfg: Config, st: State, a: Step)
    requires Inv(cfg, st) && a.Acquire? && Enabled(cfg, st, a)
    ensures Inv(cfg, Next(cfg, st, a)) && Respects(cfg, st, a, Next(cfg, st, a))
  {
    var plan := ReapPlan(cfg, st, a.path, a.order, a.redirected);
    if a.ending.StopsReaping? {
      ReapKeeps(cfg, st, a.path, a.order, a.redirected, |Cut(plan, a.ending.cut)|);
      ReapedRespects(cfg, st, a, st, DoAll(st, Cut(plan, a.ending.cut)), a.path);
    } else {
      var st1 := DoAll(st, plan);
      assert plan[..|plan|] == plan;
      ReapKeeps(cfg, st, a.path, a.order, a.redirected, |plan|);
      ReapedRespects(cfg, st, a, st, st1, a.path);
      AcquireEndKeeps(cfg, st1, a);
      RespectsTrans(cfg, st, a, st1);
    }
  }

  lemma RespectsTrans(cfg: Config, st: State, a: Step, st1: State)
    requires a.Acquire? && Inv(cfg, st1) && Reaped(cfg, st, st1, a.path) && Respects(cfg, st, a, st1)
    requires Respects(cfg, st1, a, AcquireEnd(cfg, st1, a))
    requires AcquireEnd(cfg, st1, a).existing == st1.existing
    ensures Respects(cfg, st, a, AcquireEnd(cfg, st1, a))
  {
    hide AcquireEnd, Inv;
  }

  // ---------------------------------------------------------------- runs

  /** `states` is a run: each state follows from the one before by an enabled step. */
  ghost predicate IsRun(cfg: Config, states: seq<State>, steps: seq<Step>) {
    && |states| == |steps| + 1
    && forall i :: 0 <= i < |steps| ==>
       Enabled(cfg, states[i], steps[i]) && states[i + 1] == Next(cfg, states[i], steps[i])
  }

  /** Before any lease: whatever is granted is granted from outside. */
  ghost predicate Initial(cfg: Config, st: State) {
    && st.records == map[] && st.held == {} && st.grants == st.external && st.alive <= st.born
    && (forall g :: g in st.grants ==> g.0 in st.existing && !cfg.isCapability(g.1))
  }

  /** What callers rely on. */
  ghost predicate Safe(st: State) {
    && (forall m :: m in st.held ==>
          m in st.records && !st.records[m].released && (st.records[m].path, st.records[m].sid) in st.grants)
    && (forall p, s :: (p, s) in st.grants && (p, s) !in st.external ==> Recorded(st, p, s))
    && st.external <= st.grants
  }

  lemma {:induction false} RunKeepsInv(cfg: Config, states: seq<State>, steps: seq<Step>, k: nat)
    requires IsRun(cfg, states, steps) && Initial(cfg, states[0]) && k < |states|
    ensures Inv(cfg, states[k])
  {
    if k > 0 {
      RunKeepsInv(cfg, states, steps, k - 1);
      hide Inv, Enabled, Next;
      assert states[k - 1 + 1] == Next(cfg, states[k - 1], steps[k - 1]);
      StepKeepsInv(cfg, states[k - 1], steps[k - 1]);
    }
  }

  /** In every state of every run a held lease has its grant and every grant that a
      lease made still has a durable record. */
  lemma EveryRunIsSafe(cfg: Config, states: seq<State>, steps: seq<Step>, k: nat)
    requires IsRun(cfg, states, steps) && Initial(cfg, states[0]) && k < |states|
    ensures Safe(states[k])
  {
    hide IsRun, Initial;
    RunKeepsInv(cfg, states, steps, k);
  }

  /** A grant from outside, on a path that is not a private temporary root, is there
      in every later state. */
  lemma {:induction false} OutsideGrantSurvives(cfg: Config, states: seq<State>, steps: seq<Step>, i: nat, k: nat,
      g: (Path, Sid))
    requires IsRun(cfg, states, steps) && Initial(cfg, states[0]) && i <= k < |states|
    requires g in states[i].external && !cfg.isTemporaryRoot(g.0)
    ensures g in states[k].external && g in states[k].grants && g.0 in states[k].existing
  {
    hide Inv, Enabled, Next, Initial;
    RunKeepsInv(cfg, states, steps, k);
    if i < k {
      OutsideGrantSurvives(cfg, states, steps, i, k - 1, g);
      RunKeepsInv(cfg, states, steps, k - 1);
      assert states[k - 1 + 1] == Next(cfg, states[k - 1], steps[k - 1]);
      StepKeepsInv(cfg, states[k - 1], steps[k - 1]);
    }
    OutsideGranted(cfg, states[k]);
  }

  /** The same from the moment the grant is made: it stays when no managed record covers the
      pair at that moment. */
  lemma OutsideGrantStays(cfg: Config, states: seq<State>, steps: seq<Step>, i: nat, k: nat, p: Path, s: Sid)
    requires IsRun(cfg, states, steps) && Initial(cfg, states[0]) && i < k < |states|
    requires steps[i] == GrantOutside(p, s) && !cfg.isTemporaryRoot(p) && !Recorded(states[i], p, s)
    ensures (p, s) in states[k].grants
  {
    assert (p, s) in states[i + 1].external by {
      hide Enabled, Recorded;
      assert states[i + 1] == Next(cfg, states[i], steps[i]);
    }
    hide Enabled, Next, Initial, Recorded;
    OutsideGrantSurvives(cfg, states, steps, i + 1, k, (p, s));
  }

  /** And only then: when a managed record covers the pair, the grant may be revoked. Once
      every process has died, the next undisturbed reap of the path does. */
  lemma AbsorbedGrantMayGo(cfg: Config, st: State, p: Path, s: Sid) returns (states: seq<State>, steps: seq<Step>)
    requires Inv(cfg, st) && p in st.existing && !cfg.isCapability(s) && Recorded(st, p, s)
    ensures IsRun(cfg, states, steps) && states[0] == st && |steps| > 0 && steps[0] == GrantOutside(p, s)
    ensures (p, s) in states[1].grants && (p, s) !in Last(states).grants
  {
    var st1 := GrantedOutside(st, p, s);
    RecordedIsOurs(cfg, st, p, s);
    OutsideKeeps(cfg, st, p, s);
    assert st1.external == st.external && (p, s) in st1.grants;
    hide Inv, GrantedOutside;
    states, steps := EveryoneDies(cfg, st1);
    hide Enabled, Next, IsRun, Recorded;
    var reap := ReapsDead(cfg, Last(states), p, s);
    GrantOutsideStep(cfg, st, p, s);
    RunSnoc(cfg, states, steps, reap);
    var later := states + [Next(cfg, Last(states), reap)];
    assert later[0] == st1;
    RunCons(cfg, st, GrantOutside(p, s), later, steps + [reap]);
    states, steps := [st] + later, [GrantOutside(p, s)] + (steps + [reap]);
  }

  lemma ReapsDead(cfg: Config, st: State, p: Path, s: Sid) returns (reap: Step)
    requires Inv(cfg, st) && st.alive == {} && (p, s) !in st.external
    ensures Enabled(cfg, st, reap) && (p, s) !in Next(cfg, st, reap).grants
  {
    hide Inv, ReapPlan, DoAll, ReapedFully;
    var order := ListRecords(st, p, st.records.Keys);
    assert Lists(st, p, order);
    hide Lists;
    var plan := ReapPlan(cfg, st, p, order, false);
    assert plan[..|plan|] == plan;
    reap := Step.Reap(p, order, false, |plan|);
    assert Enabled(cfg, st, reap) && Next(cfg, st, reap) == DoAll(st, plan);
    hide Enabled, Next;
    ReapReclaims(cfg, st, p, order, false);
    ReapKeeps(cfg, st, p, order, false, |plan|);
    assert !Needed(DoAll(st, plan), p, s);
  }

  lemma RecordedIsOurs(cfg: Config, st: State, p: Path, s: Sid)
    requires Inv(cfg, st) && Recorded(st, p, s)
    ensures (p, s) !in st.external
  {
    hide World, GrantsRecorded, ActiveGranted, GroupsAgree, HeldActive;
  }

  lemma GrantOutsideStep(cfg: Config, st: State, p: Path, s: Sid)
    requires p in st.existing && !cfg.isCapability(s)
    ensures Enabled(cfg, st, GrantOutside(p, s)) && Next(cfg, st, GrantOutside(p, s)) == GrantedOutside(st, p, s)
  {
  }

  lemma {:induction false} ListRecords(st: State, p: Path, among: set<Marker>) returns (order: seq<Marker>)
    requires among <= st.records.Keys
    ensures Distinct(order) && forall m :: m in order <==> m in among && st.records[m].path == p
  {
    if among == {} {
      order := [];
    } else {
      var m :| m in among;
      var rest := ListRecords(st, p, among - {m});
      order := if st.records[m].path == p then rest + [m] else rest;
    }
  }

  lemma {:induction false} EveryoneDies(cfg: Config, st: State) returns (states: seq<State>, steps: seq<Step>)
    requires Inv(cfg, st)
    ensures IsRun(cfg, states, steps) && states[0] == st
    ensures Inv(cfg, Last(states)) && Last(states).alive == {} && Last(states).records == st.records
    ensures Last(states).grants == st.grants && Last(states).external == st.external
    decreases |st.alive|
  {
    hide Inv;
    if st.alive == {} {
      return [st], [];
    }
    var process :| process in st.alive;
    KillKeeps(cfg, st, process);
    states, steps := EveryoneDies(cfg, Kill(st, process));
    RunCons(cfg, st, Die(process), states, steps);
    states, steps := [st] + states, [Die(process)] + steps;
  }

  lemma RunCons(cfg: Config, st: State, step: Step, states: seq<State>, steps: seq<Step>)
    requires IsRun(cfg, states, steps) && Enabled(cfg, st, step) && states[0] == Next(cfg, st, step)
    ensures IsRun(cfg, [st] + states, [step] + steps) && Last([st] + states) == Last(states)
  {
    hide Enabled, Next;
  }

  lemma RunSnoc(cfg: Config, states: seq<State>, steps: seq<Step>, step: Step)
    requires IsRun(cfg, states, steps) && Enabled(cfg, Last(states), step)
    ensures IsRun(cfg, states + [Next(cfg, Last(states), step)], steps + [step])
  {
    hide Enabled, Next;
  }

  lemma OutsideGranted(cfg: Config, st: State)
    requires Inv(cfg, st)
    ensures st.external <= st.grants && forall g :: g in st.external ==> g.0 in st.existing
  {
    hide GrantsRecorded, ActiveGranted, ManagedIsOurs, GroupsAgree, HeldActive;
  }

  /** A held lease stays held, with its grant, until it is given back or its owner dies. */
  lemma {:induction false} HeldUntilReleased(cfg: Config, states: seq<State>, steps: seq<Step>, i: nat, k: nat,
      m: Marker)
    requires IsRun(cfg, states, steps) && Initial(cfg, states[0]) && i <= k < |states|
    requires m in states[i].held && forall j :: i <= j < k ==> !EndsLease(states[j], steps[j], m)
    ensures m in states[k].held && m in states[i].records && m in states[k].records
    ensures states[k].records[m] == states[i].records[m]
    ensures (states[i].records[m].path, states[i].records[m].sid) in states[k].grants
  {
    hide Inv, Enabled, Next, EndsLease, Initial;
    RunKeepsInv(cfg, states, steps, k);
    HeldGranted(cfg, states[k]);
    if i < k {
      HeldUntilReleased(cfg, states, steps, i, k - 1, m);
      RunKeepsInv(cfg, states, steps, k - 1);
      assert states[k - 1 + 1] == Next(cfg, states[k - 1], steps[k - 1]);
      StepKeepsInv(cfg, states[k - 1], steps[k - 1]);
    }
  }

  lemma HeldGranted(cfg: Config, st: State)
    requires Inv(cfg, st)
    ensures forall m :: m in st.held ==> m in st.records && (st.records[m].path, st.records[m].sid) in st.grants
  {
    hide World, GrantsRecorded, ManagedIsOurs, GroupsAgree;
  }

  /** An undisturbed reap of a path leaves only active leases on it and only grants
      that an active lease or an outsider needs: nothing leaks. */
  lemma ReapReclaims(cfg: Config, st: State, p: Path, order: seq<Marker>, redirected: bool)
    requires Inv(cfg, st) && Lists(st, p, order)
    ensures var st' := DoAll(st, ReapPlan(cfg, st, p, order, redirected));
            && (forall m :: m in st'.records && st'.records[m].path == p ==> Active(st', st'.records[m]))
            && (forall s :: (p, s) in st'.grants ==> (p, s) in st'.external || Needed(st', p, s))
            && (forall m :: m in st.records && Active(st, st.records[m]) ==>
                m in st'.records && st'.records[m] == st.records[m])
  {
    var plan := ReapPlan(cfg, st, p, order, redirected);
    ReapKeeps(cfg, st, p, order, redirected, |plan|);
    assert plan[..|plan|] == plan;
    hide Inv, Lists, ReapPlan, Needed;
  }

  /** All leases of `p`, and there is one, are given back or their owners are dead, all are
      temporary, and `p` is a private temporary root that is really there. */
  ghost predicate Goes(cfg: Config, st: State, p: Path, redirected: bool) {
    && (exists m :: m in st.records && st.records[m].path == p)
    && (forall m :: m in st.records && st.records[m].path == p ==>
          (st.records[m].released || st.records[m].owner !in st.alive) && st.records[m].temporary)
    && cfg.isTemporaryRoot(p) && p in st.existing && !redirected
  }

  /** A lease on the grant that is not given back and whose owner lives. */
  ghost predicate InUse(st: State, g: (Path, Sid)) {
    exists m :: m in st.records && (st.records[m].path, st.records[m].sid) == g
                && !st.records[m].released && st.records[m].owner in st.alive
  }

  /** Exactly what an undisturbed reap of `p` leaves: the records of other paths and the
      active ones of `p`; every path but a temporary root that goes; and every grant but
      those of `p` that are neither in use nor from outside or whose path goes. */
  lemma ReapLeaves(cfg: Config, st: State, p: Path, order: seq<Marker>, redirected: bool)
    requires Inv(cfg, st) && Lists(st, p, order)
    ensures var st', goes := DoAll(st, ReapPlan(cfg, st, p, order, redirected)), Goes(cfg, st, p, redirected);
            && (forall m :: m in st'.records <==>
                  (m in st.records
                   && (st.records[m].path == p ==> !st.records[m].released && st.records[m].owner in st.alive)))
            && (forall m :: m in st'.records ==> st'.records[m] == st.records[m])
            && st'.existing == (if goes then st.existing - {p} else st.existing)
            && (forall g :: g in st'.grants <==>
                  (g in st.grants && (g.0 == p ==> !goes && (g in st.external || InUse(st, g)))))
            && (forall g :: g in st'.external <==> g in st.external && (g.0 == p ==> !goes))
            && st'.alive == st.alive && st'.born == st.born && st'.held == st.held
  {
    var plan := ReapPlan(cfg, st, p, order, redirected);
    var st' := DoAll(st, plan);
    ReapKeeps(cfg, st, p, order, redirected, |plan|);
    assert plan[..|plan|] == plan;
    ReapedExisting(cfg, st, p, order, redirected);
    hide ReapPlan, Lists, Goes, DoAll;
    ReapedGrants(cfg, st, st', p, Goes(cfg, st, p, redirected));
    hide Inv;
  }

  lemma ReapedGrants(cfg: Config, st: State, st': State, p: Path, goes: bool)
    requires Inv(cfg, st) && Inv(cfg, st') && Reaped(cfg, st, st', p) && ReapedFully(st, st', p)
    requires st'.existing == if goes then st.existing - {p} else st.existing
    ensures forall g :: g in st'.grants <==>
              (g in st.grants && (g.0 == p ==> !goes && (g in st.external || InUse(st, g))))
    ensures forall g :: g in st'.external <==> g in st.external && (g.0 == p ==> !goes)
  {
    hide GrantsRecorded, GroupsAgree, HeldActive;
    forall g | g in st.external && (g.0 == p ==> !goes) ensures g in st'.external {
      assert g in st.grants && g.0 in st'.existing;
    }
    forall g | g in st.grants && g.0 == p && InUse(st, g) ensures g in st'.grants {
      var m :| m in st.records && (st.records[m].path, st.records[m].sid) == g
               && !st.records[m].released && st.records[m].owner in st.alive;
      assert m in st'.records && Active(st', st'.records[m]);
    }
    forall g | g in st'.grants && g.0 == p ensures g in st.external || InUse(st, g) {
      if g !in st'.external {
        var m :| m in st'.records && Shares(st'.records[m], p, g.1) && st'.records[m].managed
                 && Active(st', st'.records[m]);
        assert m in st.records && st.records[m] == st'.records[m];
      }
    }
  }

  lemma ReapedExisting(cfg: Config, st: State, p: Path, order: seq<Marker>, redirected: bool)
    requires Inv(cfg, st) && Lists(st, p, order)
    ensures DoAll(st, ReapPlan(cfg, st, p, order, redirected)).existing ==
            if Goes(cfg, st, p, redirected) then st.existing - {p} else st.existing
  {
    var stale := StaleOf(st, order);
    if stale == [] {
      assert order != [] ==> order[0] in order;
    } else {
      assert stale[0] in stale && stale[0] in order;
      var revs, removal := Revokes(st, p, order, SidsOf(st, order)), Removal(cfg, st, p, order, redirected);
      assert Goes(cfg, st, p, redirected) <==> Removes(cfg, st, p, order, redirected);
      RevokesSound(cfg, st, p, order, SidsOf(st, order));
      assert forall i :: 0 <= i < |revs| ==> SoundRevoke(st, p, revs[i]);
      hide Inv, Revokes, SidsOf, StaleOf, Lists, Goes, Removes;
      KeepsTrees(st, revs);
      KeepsTrees(DoAll(st, revs + removal), Unlinks(stale));
      DoAllConcat(st, revs, removal);
      DoAllConcat(st, revs + removal, Unlinks(stale));
      if removal != [] {
        assert removal[..0] == [];
        assert DoAll(DoAll(st, revs), []) == DoAll(st, revs);
      }
    }
  }

  lemma {:induction false} KeepsTrees(st: State, effects: seq<Effect>)
    requires forall i :: 0 <= i < |effects| ==> !effects[i].RemoveTree?
    ensures DoAll(st, effects).existing == st.existing
    decreases |effects|
  {
    if effects != [] { KeepsTrees(st, effects[..|effects| - 1]); }
  }

  /** A successful acquisition: behind the reap there is one more record, of just this lease,
      and the grant is there. The lease sees to its revocation exactly when the grant is not
      from outside. */
  lemma AcquireRecords(cfg: Config, st: State, a: Step)
    requires Inv(cfg, st) && a.Acquire? && a.ending.Succeeds? && Enabled(cfg, st, a)
    ensures var st1, st' := DoAll(st, ReapPlan(cfg, st, a.path, a.order, a.redirected)), Next(cfg, st, a);
            && a.marker !in st1.records && (a.path, a.sid) in st'.grants && a.marker in st'.held
            && st'.records == st1.records[a.marker := Lease(a.path, a.sid, a.owner, (a.path, a.sid) !in st1.external,
                 false, a.temporary)]
            && st'.grants == st1.grants + {(a.path, a.sid)}
            && st' == st1.(records := st'.records, grants := st'.grants, held := st1.held + {a.marker})
  {
    ListedKnown(st, a.path, a.order);
    var st1 := DoAll(st, ReapPlan(cfg, st, a.path, a.order, a.redirected));
    hide ReapPlan, Lists, CanEnd, AcquireEnd;
    ReapStays(cfg, st, a.path, a.order, a.redirected);
    assert a.marker !in st1.records by { ReapLeaves(cfg, st, a.path, a.order, a.redirected); }
    SuccessRecords(cfg, st1, a);
    hide Inv, DoAll;
  }

  lemma SuccessRecords(cfg: Config, st: State, a: Step)
    requires Inv(cfg, st) && a.Acquire? && a.ending.Succeeds? && a.marker !in st.records
    requires forall m :: m in st.records && st.records[m].path == a.path ==> Active(st, st.records[m])
    ensures var l := Lease(a.path, a.sid, a.owner, (a.path, a.sid) !in st.external, false, a.temporary);
            AcquireEnd(cfg, st, a) == st.(records := st.records[a.marker := l], grants := st.grants + {(a.path, a.sid)},
              held := st.held + {a.marker})
  {
    ManagedFits(cfg, st, a);
    OccupiedGranted(cfg, st, a.path, a.sid);
    hide Inv, ManagedFor, Occupied;
  }

  lemma ReapStays(cfg: Config, st: State, p: Path, order: seq<Marker>, redirected: bool)
    requires Inv(cfg, st) && Lists(st, p, order)
    ensures var st' := DoAll(st, ReapPlan(cfg, st, p, order, redirected));
            Inv(cfg, st') && forall m :: m in st'.records && st'.records[m].path == p ==> Active(st', st'.records[m])
  {
    var plan := ReapPlan(cfg, st, p, order, redirected);
    ReapKeeps(cfg, st, p, order, redirected, |plan|);
    assert plan[..|plan|] == plan;
    hide Inv, Lists, ReapPlan;
  }

  /** Where every lease of the path is active, so is its grant. */
  lemma OccupiedGranted(cfg: Config, st: State, p: Path, s: Sid)
    requires Inv(cfg, st) && forall m :: m in st.records && st.records[m].path == p ==> Active(st, st.records[m])
    ensures Occupied(st, p, s) ==> (p, s) in st.grants
  {
  }

  /** A grant that raised and is undone to the end leaves things as the reap left them. */
  lemma AcquireUndone(cfg: Config, st: State, a: Step)
    requires Inv(cfg, st) && a.Acquire? && a.ending.RollsBack? && Enabled(cfg, st, a)
    requires var st1 := DoAll(st, ReapPlan(cfg, st, a.path, a.order, a.redirected));
             a.ending.undone >= |Rollback(a.marker, NewLease(cfg, st1, a))|
    ensures Next(cfg, st, a) == DoAll(st, ReapPlan(cfg, st, a.path, a.order, a.redirected))
  {
    ListedKnown(st, a.path, a.order);
    hide ReapPlan, Lists;
    var st1 := DoAll(st, ReapPlan(cfg, st, a.path, a.order, a.redirected));
    ReapStays(cfg, st, a.path, a.order, a.redirected);
    assert a.marker !in st1.records by { ReapLeaves(cfg, st, a.path, a.order, a.redirected); }
    var l := NewLease(cfg, st1, a);
    ManagedFits(cfg, st1, a);
    UndoneWhole(cfg, st1, a.marker, l, a.ending.partial);
    assert Rollback(a.marker, l)[..|Rollback(a.marker, l)|] == Rollback(a.marker, l);
    hide Inv, DoAll, ManagedFor, Occupied, Goes, InUse;
  }

  lemma UndoneWhole(cfg: Config, st: State, m: Marker, l: Lease, partial: bool)
    requires Inv(cfg, st) && m !in st.records && Fits(st, l) && !Occupied(st, l.path, l.sid)
    ensures var wrote := Do(st, Write(m, l));
            DoAll(if partial then Do(wrote, Grant(l.path, l.sid)) else wrote, Rollback(m, l)) == st
  {
    assert m !in st.held;
    assert !l.managed ==> (l.path, l.sid) in st.grants;
    assert (l.path, l.sid) in st.grants && l.managed ==> Recorded(st, l.path, l.sid);
    assert (l.path, l.sid) in st.grants ==> !l.managed;
    hide Inv, Fits, Occupied, Recorded;
    var wrote := Do(st, Write(m, l));
    RollbackSteps(if partial then Do(wrote, Grant(l.path, l.sid)) else wrote, m, l);
    hide DoAll, Rollback;
    assert st.records[m := l][m := l.(released := true)] - {m} == st.records;
    assert (st.grants + {(l.path, l.sid)}) - {(l.path, l.sid)} == st.grants - {(l.path, l.sid)};
  }

  lemma RollbackSteps(st: State, m: Marker, l: Lease)
    ensures var marked := Do(st, Write(m, l.(released := true)));
            DoAll(st, Rollback(m, l)) == Do(if l.managed then Do(marked, Revoke(l.path, l.sid)) else marked, Unlink(m))
  {
    hide Do;
    var undo := Rollback(m, l);
    DoAllNext(st, undo, 0);
    DoAllNext(st, undo, 1);
    if l.managed { DoAllNext(st, undo, 2); }
    assert undo[..|undo|] == undo;
  }

  /** An undisturbed release: the lease is gone from the records, and so is its grant unless
      another lease uses it or it is from outside. */
  lemma ReleaseReclaims(cfg: Config, st: State, m: Marker, order: seq<Marker>, redirected: bool)
    requires Inv(cfg, st) && m in st.records && Lists(Release1(st, m), st.records[m].path, order)
    ensures var l, st1 := st.records[m], Release1(st, m);
            var st' := DoAll(st1, ReapPlan(cfg, st1, l.path, order, redirected));
            && m !in st'.records && m !in st'.held
            && (forall n :: n in st'.held <==> n in st.held && n != m)
            && (forall n :: n in st'.records ==> n in st.records && st'.records[n] == st.records[n])
            && (forall n :: n in st.records && n != m && st.records[n].path != l.path ==> n in st'.records)
            && ((l.path, l.sid) in st'.grants ==>
                  || (l.path, l.sid) in st.external
                  || exists n :: n != m && n in st.records && (st.records[n].path, st.records[n].sid) == (l.path, l.sid)
                                 && !st.records[n].released && st.records[n].owner in st.alive)
  {
    var l, st1 := st.records[m], Release1(st, m);
    ReleaseKeeps(cfg, st, m);
    ReapLeaves(cfg, st1, l.path, order, redirected);
    hide Inv, ReapPlan, Lists, DoAll, Goes;
  }

  // ---------------------------------------------------------------- the lease store

  /** What happens to a process that asks the system for a grant. */
  datatype GrantResult = Works | Raises(partial: bool) | Dies(partial: bool)

  /** The first `done` effects of the plan took place; `ok`: all of them did. */
  ghost predicate Done(st: State, plan: seq<Effect>, done: nat, ok: bool, st': State) {
    done <= |plan| && (ok <==> done == |plan|) && st' == DoAll(st, plan[..done])
  }

  /** The last effects of a reap. */
  ghost function Cleaning(p: Path, removes: bool, stale: seq<Marker>): (r: seq<Effect>)
    ensures stale != [] ==> r != []
  {
    (if removes then [RemoveTree(p)] else []) + Unlinks(stale)
  }

  /** Whether the lease is obtained once its record is written: the grant is there already, as
      another lease has it, or it works for a path that is there. */
  predicate Gets(st: State, p: Path, s: Sid, grant: GrantResult) {
    && !grant.Dies?
    && ((exists m :: m in st.records && st.records[m].path == p && st.records[m].sid == s)
        || (grant.Works? && p in st.existing))
  }

  class CapabilityLeases {
    const cfg: Config
    /** Which effects fail, or do not happen because the process dies. */
    const stops: nat -> bool
    var clock: nat
    var state: State

    constructor (cfg: Config, stops: nat -> bool, state: State)
      ensures this.cfg == cfg && this.stops == stops && this.state == state
    {
      this.cfg, this.stops, this.state, clock := cfg, stops, state, 0;
    }

    /** From here on every effect works. */
    ghost predicate Calm()
      reads this`clock
    {
      forall i :: clock <= i ==> !stops(i)
    }

    method Attempt(e: Effect) returns (ok: bool)
      modifies this
      ensures state == if ok then Do(old(state), e) else old(state)
      ensures old(Calm()) ==> Calm() && ok
    {
      ok := !stops(clock);
      clock := clock + 1;
      if ok {
        state := Do(state, e);
      }
    }

    /** The record files of one path, in some order. */
    method ReadRecords(path: Path) returns (order: seq<Marker>)
      ensures Lists(state, path, order)
    {
      order := [];
      var rest := state.records.Keys;
      while rest != {}
        invariant rest <= state.records.Keys
        invariant Distinct(order)
        invariant forall m :: m in order <==> m in state.records && m !in rest && state.records[m].path == path
        decreases rest
      {
        var m :| m in rest;
        rest := rest - {m};
        if state.records[m].path == path {
          order := order + [m];
        }
      }
    }

    method RevokeGroups(path: Path, order: seq<Marker>) returns (ok: bool, done: nat)
      requires Known(state, order)
      modifies this
      ensures Done(old(state), Revokes(old(state), path, order, SidsOf(old(state), order)), done, ok, state)
      ensures old(Calm()) ==> Calm() && ok
    {
      hide RevokesGroup, SidsOf, Calm;
      var start := state;
      var sids := SidsOf(start, order);
      ghost var revs := Revokes(start, path, order, sids);
      done := 0;
      for i := 0 to |sids|
        invariant done <= |revs| && Revokes(start, path, order, sids[..i]) == revs[..done]
        invariant state == DoAll(start, revs[..done]) && (old(Calm()) ==> Calm())
      {
        hide DoAll;
        assert sids[..i + 1][..i] == sids[..i];
        RevokesPrefix(start, path, order, sids, i + 1);
        if RevokesGroup(start, path, order, sids[i]) {
          var revoked := Attempt(Revoke(path, sids[i]));
          if !revoked {
            return false, done;
          }
          DoAllNext(start, revs, done);
          done := done + 1;
        }
      }
      assert sids[..|sids|] == sids;
      ok := true;
    }

    method UnlinkAll(stale: seq<Marker>) returns (ok: bool, done: nat)
      modifies this
      ensures Done(old(state), Unlinks(stale), done, ok, state)
      ensures old(Calm()) ==> Calm() && ok
    {
      hide Calm;
      ghost var start := state;
      done := 0;
      while done < |stale|
        invariant 0 <= done <= |stale| && state == DoAll(start, Unlinks(stale)[..done]) && (old(Calm()) ==> Calm())
      {
        var unlinked := Attempt(Unlink(stale[done]));
        if !unlinked {
          return false, done;
        }
        DoAllNext(start, Unlinks(stale), done);
        done := done + 1;
      }
      ok := true;
    }

    /** Records go last, so that a failed removal can be tried again. */
    method RemoveAndUnlink(path: Path, removes: bool, stale: seq<Marker>) returns (ok: bool, done: nat)
      requires stale != []
      modifies this
      ensures Done(old(state), Cleaning(path, removes, stale), done, ok, state)
      ensures old(Calm()) ==> Calm() && ok
    {
      ghost var start := state;
      RemovedTree(start, RemoveTree(path));
      hide Done, Do, Unlinks, Calm;
      done := 0;
      if removes {
        ok := Attempt(RemoveTree(path));
        if !ok {
          StoppedEarly(start, [], [RemoveTree(path)] + Unlinks(stale), 0, start);
          assert [] + ([RemoveTree(path)] + Unlinks(stale)) == [RemoveTree(path)] + Unlinks(stale);
          return;
        }
        done := 1;
      }
      ghost var mid := state;
      var gone;
      ok, gone := UnlinkAll(stale);
      WentOn(start, if removes then [RemoveTree(path)] else [], done, mid, Unlinks(stale), gone, ok, state);
      done := done + gone;
    }

    /** Reap one path; how many effects of the plan took place, and whether all did. */
    method Reap(path: Path, order: seq<Marker>, redirected: bool) returns (ok: bool, done: nat)
      requires Lists(state, path, order)
      modifies this
      ensures Done(old(state), ReapPlan(cfg, old(state), path, order, redirected), done, ok, state)
      ensures old(Calm()) ==> Calm() && ok
    {
      hide *;
      ListedKnown(state, path, order);
      PlanParts(cfg, state, path, order, redirected);
      var stale := StaleOf(state, order);
      if stale == [] {
        return true, 0;
      }
      var removes := Removes(cfg, state, path, order, redirected);
      ghost var start, revs := state, Revokes(state, path, order, SidsOf(state, order));
      ghost var rest := Cleaning(path, removes, stale);
      ok, done := RevokeGroups(path, order);
      if ok {
        ghost var mid := state;
        var more;
        ok, more := RemoveAndUnlink(path, removes, stale);
        WentOn(start, revs, done, mid, rest, more, ok, state);
        done := done + more;
      } else {
        StoppedEarly(start, revs, rest, done, state);
      }
    }

    method Acquire(owner: Process, marker: Marker, path: Path, sid: Sid, temporary: bool, redirected: bool,
        grant: GrantResult)
      returns (ending: Ending, ghost order: seq<Marker>)
      requires owner in state.alive && marker !in state.records
      modifies this
      ensures var step := Step.Acquire(owner, marker, path, sid, temporary, order, redirected, ending);
              Enabled(cfg, old(state), step) && state == Next(cfg, old(state), step)
      ensures var start := DoAll(old(state), ReapPlan(cfg, old(state), path, order, redirected));
              !ending.StopsReaping? ==> (ending.Succeeds? <==> Gets(start, path, sid, grant))
      ensures var step := Step.Acquire(owner, marker, path, sid, temporary, order, redirected, ending);
              var start := DoAll(old(state), ReapPlan(cfg, old(state), path, order, redirected));
              old(Calm()) ==>
                && !ending.StopsReaping?
                && (ending.RollsBack? ==> ending.undone == |Rollback(marker, NewLease(cfg, start, step))|)
    {
      hide ReapPlan, ManagedFor, Occupied, Lists, AcquireEnd, CanEnd, Calm, Gets;
      var listed := ReadRecords(path);
      order := listed;
      ghost var plan := ReapPlan(cfg, state, path, listed, redirected);
      assert plan[..|plan|] == plan;
      var ok, done := Reap(path, listed, redirected);
      if !ok {
        StoppingIsFree(DoAll(old(state), plan), owner, marker, path, sid, temporary, order, redirected, done);
        return StopsReaping(done), order;
      }
      ghost var start := state;
      var occupied, managed := Occupied(state, path, sid), ManagedFor(cfg, state, path, sid);
      var lease := Lease(path, sid, owner, managed, false, temporary);
      var wrote := Attempt(Write(marker, lease));
      if !wrote {
        StoppingIsFree(start, owner, marker, path, sid, temporary, order, redirected, done);
        return StopsReaping(done), order;
      }
      ending := AskForGrant(marker, lease, occupied, grant, start, order, redirected);
    }

    /** Behind the record: only the first lease of a grant asks the system for it. */
    method AskForGrant(marker: Marker, lease: Lease, occupied: bool, grant: GrantResult, ghost start: State,
                       ghost order: seq<Marker>, ghost redirected: bool) returns (ending: Ending)
      requires state == Do(start, Write(marker, lease)) && !lease.released
      requires occupied == Occupied(start, lease.path, lease.sid)
      requires lease.managed == ManagedFor(cfg, start, lease.path, lease.sid)
      modifies this
      ensures var step := Step.Acquire(lease.owner, marker, lease.path, lease.sid, lease.temporary, order, redirected,
                                       ending);
              !ending.StopsReaping? && CanEnd(start, step) && state == AcquireEnd(cfg, start, step)
      ensures ending.Succeeds? <==> Gets(start, lease.path, lease.sid, grant)
      ensures old(Calm()) && ending.RollsBack? ==> ending.undone == |Rollback(marker, lease)|
    {
      OccupiedIs(start, lease.path, lease.sid);
      hide ManagedFor, Occupied, Rollback, Kill, Calm, Gets;
      if occupied {
        if grant.Dies? {
          state := Kill(state, lease.owner);
          return DiesGranting(false);
        }
      } else {
        var reaches := lease.path in state.existing && (grant.Works? || grant.partial);
        if reaches {
          state := Do(state, Grant(lease.path, lease.sid));
        }
        if grant.Dies? {
          state := Kill(state, lease.owner);
          return DiesGranting(reaches);
        } else if grant.Raises? || !reaches {
          ending := RollBack(marker, lease, reaches);
          return;
        }
      }
      state := state.(held := state.held + {marker});
      ending := Succeeds;
    }

    /** Undo a grant that raised; the record goes last. */
    method RollBack(marker: Marker, lease: Lease, partial: bool) returns (ending: Ending)
      modifies this
      ensures var undo := Rollback(marker, lease);
              match ending
              case DiesGranting(p) => p == partial && state == Kill(old(state), lease.owner)
              case RollsBack(p, undone) => p == partial && 0 < undone <= |undo|
                && state == DoAll(old(state), undo[..undone])
              case _ => false
      ensures old(Calm()) ==> ending == RollsBack(partial, |Rollback(marker, lease)|)
    {
      hide Calm;
      ghost var start, undo := state, Rollback(marker, lease);
      var released := Attempt(Write(marker, lease.(released := true)));
      if !released {
        state := Kill(state, lease.owner);
        return DiesGranting(partial);
      }
      DoAllNext(start, undo, 0);
      var undone := 1;
      if lease.managed {
        var revoked := Attempt(Revoke(lease.path, lease.sid));
        if !revoked {
          return RollsBack(partial, undone);
        }
        DoAllNext(start, undo, undone);
        undone := undone + 1;
      }
      var unlinked := Attempt(Unlink(marker));
      if unlinked {
        DoAllNext(start, undo, undone);
        undone := undone + 1;
      }
      ending := RollsBack(partial, undone);
    }

    /** Give a lease back; giving back an unknown one does nothing. */
    method Release(marker: Marker, redirected: bool) returns (ghost step: Option<Step>)
      modifies this
      ensures step.None? ==> marker !in old(state).records && state == old(state)
      ensures step.Some? ==> Enabled(cfg, old(state), step.value) && state == Next(cfg, old(state), step.value)
      ensures step.Some? ==>
                step.value == ReleaseDies(marker)
                || (step.value.Release? && step.value.marker == marker && marker !in state.held)
      ensures old(Calm()) && marker in old(state).records ==>
                && step.Some? && step.value.Release? && step.value.redirected == redirected
                && (var st1 := Release1(old(state), marker);
                    var path := old(state).records[marker].path;
                    state == DoAll(st1, ReapPlan(cfg, st1, path, step.value.order, redirected)))
    {
      hide ReapPlan, Lists, Calm;
      if marker !in state.records {
        return None;
      }
      var lease := state.records[marker];
      var released := Attempt(Write(marker, lease.(released := true)));
      if !released {
        state := Kill(state, lease.owner);
        return Some(ReleaseDies(marker));
      }
      state := state.(held := state.held - {marker});
      ghost var st1 := state;
      var order := ReadRecords(lease.path);
      var ok, done := Reap(lease.path, order, redirected);
      ghost var plan := ReapPlan(cfg, st1, lease.path, order, redirected);
      ReapLeavesHeld(st1, plan[..done]);
      assert plan[..|plan|] == plan;
      step := Some(Step.Release(marker, order, redirected, done));
    }

    /** Reap every path; a failure on one path does not keep the others from it. */
    method CleanupStale(redirected: Path -> bool) returns (clean: bool)
      requires Inv(cfg, state)
      modifies this
      ensures Inv(cfg, state) && state.held == old(state).held && state.alive == old(state).alive
      ensures forall g :: g in old(state).external ==> g in state.external || g.0 !in state.existing
      ensures forall p :: p in old(state).existing ==> p in state.existing || cfg.isTemporaryRoot(p)
      ensures clean ==> forall m :: m in state.records ==> Active(state, state.records[m])
      ensures old(Calm()) ==> clean
    {
      hide Inv, ReapPlan, Lists, DoAll, Calm;
      var paths := set m | m in state.records :: state.records[m].path;
      clean := true;
      while paths != {}
        invariant Inv(cfg, state) && state.held == old(state).held && state.alive == old(state).alive
        invariant old(Calm()) ==> Calm() && clean
        invariant forall g :: g in old(state).external ==> g in state.external || g.0 !in state.existing
        invariant forall p :: p in old(state).existing ==> p in state.existing || cfg.isTemporaryRoot(p)
        invariant clean ==> forall m :: m in state.records ==>
                  state.records[m].path in paths || Active(state, state.records[m])
        decreases paths
      {
        var path :| path in paths;
        paths := paths - {path};
        ghost var before := state;
        var order := ReadRecords(path);
        var ok, done := Reap(path, order, redirected(path));
        ReapKeeps(cfg, before, path, order, redirected(path), done);
        clean := clean && ok;
      }
    }
  }

  lemma OccupiedIs(st: State, p: Path, s: Sid)
    ensures forall grant :: Gets(st, p, s, grant) <==>
              (!grant.Dies? && (Occupied(st, p, s) || (grant.Works? && p in st.existing)))
  {
  }

  lemma {:induction false} ReapLeavesHeld(st: State, effects: seq<Effect>)
    ensures DoAll(st, effects).held <= st.held
    decreases |effects|
  {
    if effects != [] { ReapLeavesHeld(st, effects[..|effects| - 1]); }
  }

  lemma StoppingIsFree(st: State, owner: Process, marker: Marker, path: Path, sid: Sid, temporary: bool,
                       order: seq<Marker>, redirected: bool, done: nat)
    ensures CanEnd(st, Step.Acquire(owner, marker, path, sid, temporary, order, redirected, StopsReaping(done)))
  {
  }

  lemma ListedKnown(st: State, p: Path, ms: seq<Marker>)
    requires Lists(st, p, ms)
    ensures Known(st, ms)
  {
  }

  lemma PlanParts(cfg: Config, st: State, p: Path, ms: seq<Marker>, redirected: bool)
    requires Known(st, ms)
    ensures ReapPlan(cfg, st, p, ms, redirected) ==
            if StaleOf(st, ms) == [] then []
            else Revokes(st, p, ms, SidsOf(st, ms)) + Cleaning(p, Removes(cfg, st, p, ms, redirected), StaleOf(st, ms))
    ensures Done(st, [], 0, true, st)
  {
  }

  lemma StoppedEarly(st: State, a: seq<Effect>, rest: seq<Effect>, i: nat, st': State)
    requires rest != [] && (Done(st, a, i, false, st') || Done(st, a, i, true, st'))
    ensures Done(st, a + rest, i, false, st')
  {
    assert (a + rest)[..i] == a[..i];
  }

  lemma WentOn(st: State, a: seq<Effect>, i: nat, mid: State, c: seq<Effect>, j: nat, ok: bool, st': State)
    requires Done(st, a, i, true, mid) && Done(mid, c, j, ok, st')
    ensures Done(st, a + c, i + j, ok, st')
  {
    assert a[..i] == a;
    assert (a + c)[..i + j] == a + c[..j];
    DoAllConcat(st, a, c[..j]);
  }

  lemma RemovedTree(st: State, e: Effect)
    ensures Done(st, [e], 1, true, Do(st, e)) && Done(st, [], 0, true, st)
  {
    assert [e][..1] == [e] && [e][..0] == [];
  }

  lemma DoAllNext(st: State, plan: seq<Effect>, k: nat)
    requires k < |plan|
    ensures DoAll(st, plan[..k + 1]) == Do(DoAll(st, plan[..k]), plan[k])
  {
    assert plan[..k + 1][..k] == plan[..k];
  }

  lemma {:induction false} RevokesPrefix(st: State, p: Path, ms: seq<Marker>, sids: seq<Sid>, i: nat)
    requires i <= |sids| && Known(st, ms)
    ensures var some, all := Revokes(st, p, ms, sids[..i]), Revokes(st, p, ms, sids);
            |some| <= |all| && some == all[..|some|]
    decreases |sids|
  {
    if i == |sids| {
      assert sids[..i] == sids;
    } else {
      RevokesPrefix(st, p, ms, sids[..|sids| - 1], i);
      assert sids[..|sids| - 1][..i] == sids[..i];
    }
  }
}
