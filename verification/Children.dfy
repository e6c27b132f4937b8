/** The children of one load balancer: lines 143-194 of `Reconcile`. */
module Children {
  import opened Api
  import opened Tables
  import opened Patching
  import opened Frames
  import opened Nodes
  import opened Zones
  import opened Statuses
  import opened Phases
  import L = Listeners
  import M = Monitors
  import B = Members

  /** The children of all pools at some moment. */
  datatype Scene = Scene(listeners: Moment<L.Listener>, monitors: Moment<M.Monitor>, members: Moment<B.Member>)

  ghost function View(listeners: Table<L.Listener>, monitors: Table<M.Monitor>, members: Table<B.Member>): Scene
    reads listeners, monitors, members
  {
    Scene(Now(listeners), Now(monitors), Now(members))
  }

  ghost function ListenersOf(ids: set<string>): L.Listener -> bool { (x: L.Listener) => x.pool in ids }
  ghost function MonitorsOf(ids: set<string>): M.Monitor -> bool { (x: M.Monitor) => x.pool in ids }
  ghost function MembersOf(ids: set<string>): B.Member -> bool { (x: B.Member) => x.pool in ids }

  /** Only children of these pools changed, in every state in between as well. */
  ghost predicate Within(a: Scene, b: Scene, ids: set<string>) {
    && Framed(a.listeners, b.listeners, ListenersOf(ids))
    && Framed(a.monitors, b.monitors, MonitorsOf(ids))
    && Framed(a.members, b.members, MembersOf(ids))
  }

  /** All changes are outcomes of calls. */
  ghost predicate ByScene(a: Scene, b: Scene) {
    ByCalls(a.listeners, b.listeners) && ByCalls(a.monitors, b.monitors) && ByCalls(a.members, b.members)
  }

  lemma WithinSelf(a: Scene, ids: set<string>)
    ensures Within(a, a, ids)
  {
  }

  lemma WithinChain(a: Scene, b: Scene, c: Scene, ids: set<string>, more: set<string>)
    requires Within(a, b, ids) && Within(b, c, more)
    ensures Within(a, c, ids + more)
  {
    hide Framed;
    var all := ids + more;
    FramedWider(a.listeners, b.listeners, ListenersOf(ids), ListenersOf(all));
    FramedWider(b.listeners, c.listeners, ListenersOf(more), ListenersOf(all));
    FramedChain(a.listeners, b.listeners, c.listeners, ListenersOf(all));
    FramedWider(a.monitors, b.monitors, MonitorsOf(ids), MonitorsOf(all));
    FramedWider(b.monitors, c.monitors, MonitorsOf(more), MonitorsOf(all));
    FramedChain(a.monitors, b.monitors, c.monitors, MonitorsOf(all));
    FramedWider(a.members, b.members, MembersOf(ids), MembersOf(all));
    FramedWider(b.members, c.members, MembersOf(more), MembersOf(all));
    FramedChain(a.members, b.members, c.members, MembersOf(all));
  }

  /** At most one listener and one health monitor per pool. */
  ghost predicate Singles(a: Scene) {
    OnePerPool(a.listeners.rows, PoolOfListener()) && OnePerPool(a.monitors.rows, PoolOfMonitor())
  }

  /** The same in every state a call has left between two moments. */
  ghost predicate AlwaysSingles(a: Scene, b: Scene) {
    && Singles(b)
    && AlwaysOnePerPool(b.listeners.log, |a.listeners.log|, PoolOfListener())
    && AlwaysOnePerPool(b.monitors.log, |a.monitors.log|, PoolOfMonitor())
  }

  lemma AlwaysChain(a: Scene, b: Scene, c: Scene, ids: set<string>)
    requires AlwaysSingles(a, b) && AlwaysSingles(b, c) && Within(b, c, ids)
    ensures AlwaysSingles(a, c)
  {
    hide OnePerPool, SameElsewhere;
    assert b.listeners.log <= c.listeners.log && b.monitors.log <= c.monitors.log;
    forall i | |a.listeners.log| <= i < |c.listeners.log| ensures OnePerPool(c.listeners.log[i], PoolOfListener()) {
      assert i < |b.listeners.log| ==> c.listeners.log[i] == b.listeners.log[i];
    }
    forall i | |a.monitors.log| <= i < |c.monitors.log| ensures OnePerPool(c.monitors.log[i], PoolOfMonitor()) {
      assert i < |b.monitors.log| ==> c.monitors.log[i] == b.monitors.log[i];
    }
  }

  // ---------------------------------------------------------------- one pool

  /** The children of the cloud pool `theirs` are those of the pool `ours`; if `settled`, nothing is left to
      patch. */
  ghost predicate PoolDone(s: Scene, env: Environment, key: NamespacedName, ours: Pool, theirs: string, settled: bool) {
    && FrontDone(s.listeners.rows, s.monitors.rows, key, ours, theirs, settled)
    && MembersDone(s.members.rows, theirs, env, key, ours)
  }

  /** No child differs from a zero wanted value. */
  ghost predicate PoolEffective(s: Scene, key: NamespacedName, ours: Pool, theirs: string) {
    FrontEffective(s.listeners.rows, s.monitors.rows, key, ours, theirs)
  }

  ghost predicate FrontDone(listeners: L.Rows, monitors: M.Rows, key: NamespacedName, ours: Pool, theirs: string,
                            settled: bool) {
    && ListenerDone(listeners, L.WantedListener(key, ours, theirs), settled)
    && MonitorDone(monitors, M.WantedMonitor(ours, theirs), settled)
  }

  ghost predicate FrontEffective(listeners: L.Rows, monitors: M.Rows, key: NamespacedName, ours: Pool, theirs: string) {
    && ListenerEffective(listeners, L.WantedListener(key, ours, theirs))
    && MonitorEffective(monitors, M.WantedMonitor(ours, theirs))
  }

  lemma ListenerMoves(a: L.Rows, b: L.Rows, ids: set<string>, want: L.Listener, settled: bool)
    requires SameElsewhere(a, b, ListenersOf(ids)) && want.pool !in ids && ListenerDone(a, want, settled)
    ensures ListenerDone(b, want, settled)
  {
    var id :| Only(a, L.OfPool(want.pool), id) && L.Agrees(a[id], want) &&
      (settled ==> L.Differences(a[id], want) == 0);
    OnlyElsewhere(a, b, ListenersOf(ids), L.OfPool(want.pool), id);
  }

  lemma ListenerKept(a: L.Rows, b: L.Rows, ids: set<string>, want: L.Listener)
    requires SameElsewhere(a, b, ListenersOf(ids)) && want.pool !in ids
    ensures forall settled :: ListenerDone(a, want, settled) <==> ListenerDone(b, want, settled)
    ensures ListenerEffective(a, want) <==> ListenerEffective(b, want)
  {
    forall settled ensures ListenerDone(a, want, settled) <==> ListenerDone(b, want, settled) {
      if ListenerDone(a, want, settled) {
        ListenerMoves(a, b, ids, want, settled);
      }
      if ListenerDone(b, want, settled) {
        ListenerMoves(b, a, ids, want, settled);
      }
    }
    hide ListenerDone;
    hide L.Effective;
    forall id | id in a && a[id].pool == want.pool ensures id in b && b[id] == a[id] {
      assert !ListenersOf(ids)(a[id]);
    }
    forall id | id in b && b[id].pool == want.pool ensures id in a && b[id] == a[id] {
      assert !ListenersOf(ids)(b[id]);
    }
  }

  lemma MonitorMoves(a: M.Rows, b: M.Rows, ids: set<string>, want: M.Monitor, settled: bool)
    requires SameElsewhere(a, b, MonitorsOf(ids)) && want.pool !in ids && MonitorDone(a, want, settled)
    ensures MonitorDone(b, want, settled)
  {
    var id :| Only(a, M.OfPool(want.pool), id) && M.Agrees(a[id], want) &&
      (settled ==> M.Differences(a[id], want) == 0);
    OnlyElsewhere(a, b, MonitorsOf(ids), M.OfPool(want.pool), id);
  }

  lemma MonitorKept(a: M.Rows, b: M.Rows, ids: set<string>, want: M.Monitor)
    requires SameElsewhere(a, b, MonitorsOf(ids)) && want.pool !in ids
    ensures forall settled :: MonitorDone(a, want, settled) <==> MonitorDone(b, want, settled)
    ensures MonitorEffective(a, want) <==> MonitorEffective(b, want)
  {
    forall settled ensures MonitorDone(a, want, settled) <==> MonitorDone(b, want, settled) {
      if MonitorDone(a, want, settled) {
        MonitorMoves(a, b, ids, want, settled);
      }
      if MonitorDone(b, want, settled) {
        MonitorMoves(b, a, ids, want, settled);
      }
    }
    hide MonitorDone;
    hide M.Effective;
    forall id | id in a && a[id].pool == want.pool ensures id in b && b[id] == a[id] {
      assert !MonitorsOf(ids)(a[id]);
    }
    forall id | id in b && b[id].pool == want.pool ensures id in a && b[id] == a[id] {
      assert !MonitorsOf(ids)(b[id]);
    }
  }

  lemma MembersSame(a: B.Rows, b: B.Rows, ids: set<string>, pool: string)
    requires SameElsewhere(a, b, MembersOf(ids)) && pool !in ids
    ensures forall id :: id in a && a[id].pool == pool ==> id in b && b[id] == a[id]
    ensures forall id :: id in b && b[id].pool == pool ==> id in a && b[id] == a[id]
  {
    forall id | id in a && a[id].pool == pool ensures id in b && b[id] == a[id] {
      assert !MembersOf(ids)(a[id]);
    }
    forall id | id in b && b[id].pool == pool ensures id in a && b[id] == a[id] {
      assert !MembersOf(ids)(b[id]);
    }
  }

  lemma MembersKept(a: B.Rows, b: B.Rows, ids: set<string>, pool: string)
    requires SameElsewhere(a, b, MembersOf(ids)) && pool !in ids
    ensures B.Idents(a, pool) == B.Idents(b, pool)
    ensures forall backends :: Reported(backends, a, pool) ==> Reported(backends, b, pool)
    ensures Distinguished(a, pool) <==> Distinguished(b, pool)
  {
    MembersSame(a, b, ids, pool);
    hide SameElsewhere, SortKey, BackendOf, BackendsOf, B.IdentOf;
    forall listed | Enumerates(listed, a, B.InPool(pool)) ensures Enumerates(listed, b, B.InPool(pool)) {
    }
  }

  /** Work on other pools keeps what is done for a pool. */
  lemma PoolKept(a: Scene, b: Scene, ids: set<string>, env: Environment, key: NamespacedName, ours: Pool,
                 theirs: string)
    requires Within(a, b, ids) && theirs !in ids
    ensures forall settled :: PoolDone(a, env, key, ours, theirs, settled) <==>
      PoolDone(b, env, key, ours, theirs, settled)
    ensures PoolEffective(a, key, ours, theirs) <==> PoolEffective(b, key, ours, theirs)
    ensures forall backends :: Reported(backends, a.members.rows, theirs) ==> Reported(backends, b.members.rows, theirs)
  {
    L.WantedOf(key, ours, theirs);
    M.WantedIsRequest(ours, theirs);
    hide L.WantedListener, M.WantedMonitor, ListenerDone, MonitorDone, ListenerEffective, MonitorEffective, Reported,
      SameElsewhere, B.Idents;
    ListenerKept(a.listeners.rows, b.listeners.rows, ids, L.WantedListener(key, ours, theirs));
    MonitorKept(a.monitors.rows, b.monitors.rows, ids, M.WantedMonitor(ours, theirs));
    MembersKept(a.members.rows, b.members.rows, ids, theirs);
  }

  lemma OnePool(a: Scene, b: Scene, theirs: string)
    requires Framed(a.listeners, b.listeners, L.OfPool(theirs)) && Framed(a.monitors, b.monitors, M.OfPool(theirs))
    requires Framed(a.members, b.members, B.InPool(theirs))
    ensures Within(a, b, {theirs})
  {
    hide Framed;
    FramedWider(a.listeners, b.listeners, L.OfPool(theirs), ListenersOf({theirs}));
    FramedWider(a.monitors, b.monitors, M.OfPool(theirs), MonitorsOf({theirs}));
    FramedWider(a.members, b.members, B.InPool(theirs), MembersOf({theirs}));
  }

  /** An error of the work on a pool that is no failed call: several listeners or monitors, or nodes and servers that
      cannot be read. */
  ghost predicate Blocked(s: Scene, env: Environment, ours: Pool, theirs: string) {
    || !AtMostOne(s.listeners.rows, L.OfPool(theirs)) || !AtMostOne(s.monitors.rows, M.OfPool(theirs))
    || !PoolReadable(env, ours.backend.nodeSelector)
  }

  ghost function Failures(listeners: Table<L.Listener>, monitors: Table<M.Monitor>, members: Table<B.Member>): nat
    reads listeners, monitors, members
  {
    listeners.failures + monitors.failures + members.failures
  }

  /** No pool gets a second listener or monitor. */
  ghost predicate NoneAdded(a: Scene, b: Scene) {
    && (forall p :: AtMostOne(a.listeners.rows, L.OfPool(p)) ==> AtMostOne(b.listeners.rows, L.OfPool(p)))
    && (forall p :: AtMostOne(a.monitors.rows, M.OfPool(p)) ==> AtMostOne(b.monitors.rows, M.OfPool(p)))
  }

  lemma NoneAddedElsewhere(a: Scene, b: Scene, theirs: string)
    requires Within(a, b, {theirs})
    requires AtMostOne(a.listeners.rows, L.OfPool(theirs)) ==> AtMostOne(b.listeners.rows, L.OfPool(theirs))
    requires AtMostOne(a.monitors.rows, M.OfPool(theirs)) ==> AtMostOne(b.monitors.rows, M.OfPool(theirs))
    ensures NoneAdded(a, b)
  {
    hide AtMostOne, SameElsewhere;
    forall p | AtMostOne(a.listeners.rows, L.OfPool(p)) ensures AtMostOne(b.listeners.rows, L.OfPool(p)) {
      if p != theirs {
        AtMostOneElsewhere(a.listeners.rows, b.listeners.rows, ListenersOf({theirs}), L.OfPool(p));
      }
    }
    forall p | AtMostOne(a.monitors.rows, M.OfPool(p)) ensures AtMostOne(b.monitors.rows, M.OfPool(p)) {
      if p != theirs {
        AtMostOneElsewhere(a.monitors.rows, b.monitors.rows, MonitorsOf({theirs}), M.OfPool(p));
      }
    }
  }

  lemma StillBlocked(a: Scene, b: Scene, env: Environment, ours: Pool, theirs: string)
    requires NoneAdded(a, b) && Blocked(b, env, ours, theirs)
    ensures Blocked(a, env, ours, theirs)
  {
    hide AtMostOne, PoolReadable;
  }

  /** The body of the loop over the pools. */
  method EnsurePool(listeners: Table<L.Listener>, monitors: Table<M.Monitor>, members: Table<B.Member>,
                    env: Environment, key: NamespacedName, ours: Pool, theirs: string)
    returns (ok: bool, status: StatusPool)
    requires listeners.Valid() && monitors.Valid() && members.Valid() && WellNamed(env.nodes)
    modifies listeners, monitors, members
    ensures listeners.Valid() && monitors.Valid() && members.Valid()
    ensures Within(old(View(listeners, monitors, members)), View(listeners, monitors, members), {theirs})
    ensures Singles(old(View(listeners, monitors, members))) ==>
      AlwaysSingles(old(View(listeners, monitors, members)), View(listeners, monitors, members))
    ensures ok ==> PoolDone(View(listeners, monitors, members), env, key, ours, theirs, false)
    ensures ok ==> (PoolDone(View(listeners, monitors, members), env, key, ours, theirs, true) <==>
                    PoolEffective(old(View(listeners, monitors, members)), key, ours, theirs))
    ensures ok ==> status.name == ours.name && Reported(status.backends, members.rows, theirs)
    ensures PoolEffective(old(View(listeners, monitors, members)), key, ours, theirs) <==>
            PoolEffective(View(listeners, monitors, members), key, ours, theirs)
    ensures PoolDone(old(View(listeners, monitors, members)), env, key, ours, theirs, true) ==>
      View(listeners, monitors, members) == old(View(listeners, monitors, members))
    ensures NoneAdded(old(View(listeners, monitors, members)), View(listeners, monitors, members))
    ensures Failures(listeners, monitors, members) >= old(Failures(listeners, monitors, members))
    ensures Failures(listeners, monitors, members) == old(Failures(listeners, monitors, members)) ==>
      ok || Blocked(old(View(listeners, monitors, members)), env, ours, theirs)
  {
    hide Traced, Framed, Within, OnePerPool, AlwaysOnePerPool, FrontDone, FrontEffective, MembersDone, WellNamed,
      Reported, AtMostOne, PoolReadable, NoneAdded;
    status := StatusPool("", []);
    ghost var before := View(listeners, monitors, members);
    ghost var c := Now(members);
    FramedSelf(c, B.InPool(theirs));
    ok := EnsureFront(listeners, monitors, key, ours, theirs);
    if ok {
      var backends;
      ok, backends := MemberPhase(members, env, key, ours, theirs);
      status := StatusPool(ours.name, backends);
    }
    OnePool(before, View(listeners, monitors, members), theirs);
    NoneAddedElsewhere(before, View(listeners, monitors, members), theirs);
  }

  /** Listener and health monitor of a pool. */
  method EnsureFront(listeners: Table<L.Listener>, monitors: Table<M.Monitor>, key: NamespacedName, ours: Pool,
                     theirs: string) returns (ok: bool)
    requires listeners.Valid() && monitors.Valid()
    modifies listeners, monitors
    ensures listeners.Valid() && monitors.Valid()
    ensures Framed(old(Now(listeners)), Now(listeners), L.OfPool(theirs))
    ensures Framed(old(Now(monitors)), Now(monitors), M.OfPool(theirs))
    ensures OnePerPool(old(listeners.rows), PoolOfListener()) ==>
      && OnePerPool(listeners.rows, PoolOfListener())
      && AlwaysOnePerPool(listeners.log, |old(listeners.log)|, PoolOfListener())
    ensures OnePerPool(old(monitors.rows), PoolOfMonitor()) ==>
      && OnePerPool(monitors.rows, PoolOfMonitor())
      && AlwaysOnePerPool(monitors.log, |old(monitors.log)|, PoolOfMonitor())
    ensures ok ==> FrontDone(listeners.rows, monitors.rows, key, ours, theirs, false)
    ensures ok ==> (FrontDone(listeners.rows, monitors.rows, key, ours, theirs, true) <==>
                    FrontEffective(old(listeners.rows), old(monitors.rows), key, ours, theirs))
    ensures FrontEffective(old(listeners.rows), old(monitors.rows), key, ours, theirs) <==>
            FrontEffective(listeners.rows, monitors.rows, key, ours, theirs)
    ensures FrontDone(old(listeners.rows), old(monitors.rows), key, ours, theirs, true) ==>
      Now(listeners) == old(Now(listeners)) && Now(monitors) == old(Now(monitors))
    ensures AtMostOne(old(listeners.rows), L.OfPool(theirs)) ==> AtMostOne(listeners.rows, L.OfPool(theirs))
    ensures AtMostOne(old(monitors.rows), M.OfPool(theirs)) ==> AtMostOne(monitors.rows, M.OfPool(theirs))
    ensures listeners.failures >= old(listeners.failures) && monitors.failures >= old(monitors.failures)
    ensures !ok ==>
      || listeners.failures > old(listeners.failures) || monitors.failures > old(monitors.failures)
      || !AtMostOne(old(listeners.rows), L.OfPool(theirs)) || !AtMostOne(old(monitors.rows), M.OfPool(theirs))
  {
    hide Traced, Framed, OnePerPool, AlwaysOnePerPool, ListenerDone, MonitorDone, ListenerEffective, MonitorEffective,
      AtMostOne, L.WantedListener, M.WantedMonitor;
    ghost var b := Now(monitors);
    FramedSelf(b, M.OfPool(theirs));
    NoNewStates(b.log, PoolOfMonitor());
    ok := ListenerPhase(listeners, key, ours, theirs);
    if ok {
      ok := MonitorPhase(monitors, ours, theirs);
    }
  }

  // ---------------------------------------------------------------- all pools

  ghost function Ids(mapping: seq<(Pool, string)>): set<string> {
    set i | 0 <= i < |mapping| :: mapping[i].1
  }

  ghost predicate Injective(mapping: seq<(Pool, string)>) {
    forall i, j :: 0 <= i < j < |mapping| ==> mapping[i].1 != mapping[j].1
  }

  /** A pool is done, and settled exactly if its children were effective at the start. */
  ghost predicate DoneAt(start: Scene, now: Scene, env: Environment, key: NamespacedName, m: (Pool, string),
                         status: StatusPool) {
    && PoolDone(now, env, key, m.0, m.1, false)
    && (PoolDone(now, env, key, m.0, m.1, true) <==> PoolEffective(start, key, m.0, m.1))
    && status.name == m.0.name && Reported(status.backends, now.members.rows, m.1)
  }

  ghost predicate AllDone(start: Scene, now: Scene, env: Environment, key: NamespacedName,
                          mapping: seq<(Pool, string)>, pools: seq<StatusPool>) {
    |pools| <= |mapping| && forall j :: 0 <= j < |pools| ==> DoneAt(start, now, env, key, mapping[j], pools[j])
  }

  ghost predicate AllSettled(s: Scene, env: Environment, key: NamespacedName, mapping: seq<(Pool, string)>) {
    forall j :: 0 <= j < |mapping| ==> PoolDone(s, env, key, mapping[j].0, mapping[j].1, true)
  }

  /** Whatever happened, the mapped pools are as effective as they were. */
  ghost predicate AsEffective(start: Scene, now: Scene, key: NamespacedName, mapping: seq<(Pool, string)>) {
    forall j :: 0 <= j < |mapping| ==>
      (PoolEffective(start, key, mapping[j].0, mapping[j].1) <==> PoolEffective(now, key, mapping[j].0, mapping[j].1))
  }

  lemma StaysEffective(start: Scene, mid: Scene, now: Scene, env: Environment, key: NamespacedName,
                       mapping: seq<(Pool, string)>, n: nat)
    requires Injective(mapping) && n < |mapping| && AsEffective(start, mid, key, mapping) &&
      Within(mid, now, {mapping[n].1})
    requires PoolEffective(mid, key, mapping[n].0, mapping[n].1) <==>
      PoolEffective(now, key, mapping[n].0, mapping[n].1)
    ensures AsEffective(start, now, key, mapping)
  {
    hide Within, PoolEffective, PoolDone, Reported;
    forall j | 0 <= j < |mapping|
      ensures PoolEffective(start, key, mapping[j].0, mapping[j].1) <==>
        PoolEffective(now, key, mapping[j].0, mapping[j].1) {
      if j != n {
        PoolKept(mid, now, {mapping[n].1}, env, key, mapping[j].0, mapping[j].1);
      }
    }
  }

  ghost predicate SomeBlocked(s: Scene, env: Environment, mapping: seq<(Pool, string)>) {
    exists j :: 0 <= j < |mapping| && Blocked(s, env, mapping[j].0, mapping[j].1)
  }

  lemma MoreIds(mapping: seq<(Pool, string)>, n: nat)
    requires n < |mapping|
    ensures Ids(mapping[..n + 1]) == Ids(mapping[..n]) + {mapping[n].1}
    ensures Injective(mapping) ==> mapping[n].1 !in Ids(mapping[..n])
  {
    assert mapping[..n + 1] == mapping[..n] + [mapping[n]];
    forall x | x in Ids(mapping[..n]) + {mapping[n].1} ensures x in Ids(mapping[..n + 1]) {
      if x in Ids(mapping[..n]) {
        var i :| 0 <= i < n && mapping[..n][i].1 == x;
        assert mapping[..n + 1][i].1 == x;
      } else {
        assert mapping[..n + 1][n].1 == x;
      }
    }
  }

  /** One more pool is done. */
  lemma DoneMore(start: Scene, mid: Scene, now: Scene, env: Environment, key: NamespacedName,
                 mapping: seq<(Pool, string)>,
                 pools: seq<StatusPool>, status: StatusPool)
    requires Injective(mapping) && |pools| < |mapping| && AllDone(start, mid, env, key, mapping, pools)
    requires Within(start, mid, Ids(mapping[..|pools|])) && Within(mid, now, {mapping[|pools|].1})
    requires DoneAt(mid, now, env, key, mapping[|pools|], status)
    ensures AllDone(start, now, env, key, mapping, pools + [status])
  {
    hide Within, PoolDone, PoolEffective, Reported, Ids;
    var n := |pools|;
    MoreIds(mapping, n);
    PoolKept(start, mid, Ids(mapping[..n]), env, key, mapping[n].0, mapping[n].1);
    forall j | 0 <= j < n ensures DoneAt(start, now, env, key, mapping[j], pools[j]) {
      assert DoneAt(start, mid, env, key, mapping[j], pools[j]) && mapping[j].1 != mapping[n].1;
      PoolKept(mid, now, {mapping[n].1}, env, key, mapping[j].0, mapping[j].1);
    }
  }

  /** The loop over the pools (lines 148-194). */
  method EnsureEachPool(listeners: Table<L.Listener>, monitors: Table<M.Monitor>, members: Table<B.Member>,
                        env: Environment, key: NamespacedName, mapping: seq<(Pool, string)>)
    returns (ok: bool, pools: seq<StatusPool>)
    requires listeners.Valid() && monitors.Valid() && members.Valid() && WellNamed(env.nodes)
    modifies listeners, monitors, members
    ensures listeners.Valid() && monitors.Valid() && members.Valid()
    ensures Within(old(View(listeners, monitors, members)), View(listeners, monitors, members), Ids(mapping))
    ensures Singles(old(View(listeners, monitors, members))) ==>
      AlwaysSingles(old(View(listeners, monitors, members)), View(listeners, monitors, members))
    ensures ok ==> |pools| == |mapping|
    ensures ok && Injective(mapping) ==>
      AllDone(old(View(listeners, monitors, members)), View(listeners, monitors, members), env, key, mapping, pools)
    ensures Injective(mapping) ==>
      AsEffective(old(View(listeners, monitors, members)), View(listeners, monitors, members), key, mapping)
    ensures AllSettled(old(View(listeners, monitors, members)), env, key, mapping) ==>
      View(listeners, monitors, members) == old(View(listeners, monitors, members))
    ensures Failures(listeners, monitors, members) >= old(Failures(listeners, monitors, members))
    ensures Failures(listeners, monitors, members) == old(Failures(listeners, monitors, members)) ==>
      ok || SomeBlocked(old(View(listeners, monitors, members)), env, mapping)
  {
    hide Traced, Within, PoolDone, PoolEffective, Reported, WellNamed, Singles, AlwaysSingles, AllDone, Injective,
      Ids, AsEffective, NoneAdded, Blocked;
    ghost var start := View(listeners, monitors, members);
    pools := [];
    NothingDone(start, env, key, mapping);
    while |pools| < |mapping|
      invariant |pools| <= |mapping| && listeners.Valid() && monitors.Valid() && members.Valid()
      invariant Within(start, View(listeners, monitors, members), Ids(mapping[..|pools|]))
      invariant Singles(start) ==> AlwaysSingles(start, View(listeners, monitors, members))
      invariant Injective(mapping) ==> AllDone(start, View(listeners, monitors, members), env, key, mapping, pools)
      invariant Injective(mapping) ==> AsEffective(start, View(listeners, monitors, members), key, mapping)
      invariant AllSettled(start, env, key, mapping) ==> View(listeners, monitors, members) == start
      invariant NoneAdded(start, View(listeners, monitors, members))
      invariant Failures(listeners, monitors, members) >= old(Failures(listeners, monitors, members))
      decreases |mapping| - |pools|
    {
      var n := |pools|;
      ghost var mid := View(listeners, monitors, members);
      MoreIds(mapping, n);
      var status;
      ok, status := EnsurePool(listeners, monitors, members, env, key, mapping[n].0, mapping[n].1);
      ghost var now := View(listeners, monitors, members);
      WithinChain(start, mid, now, Ids(mapping[..n]), {mapping[n].1});
      if Singles(start) {
        assert Singles(mid) by { AlwaysNow(start, mid); }
        AlwaysChain(start, mid, now, {mapping[n].1});
      }
      if Injective(mapping) {
        StaysEffective(start, mid, now, env, key, mapping, n);
      }
      if Blocked(mid, env, mapping[n].0, mapping[n].1) {
        StillBlocked(start, mid, env, mapping[n].0, mapping[n].1);
      }
      NoneAddedChain(start, mid, now);
      if !ok {
        RestWithin(start, now, mapping, n + 1);
        return;
      }
      if Injective(mapping) {
        DoneMore(start, mid, now, env, key, mapping, pools, status);
      }
      pools := pools + [status];
    }
    assert mapping[..|mapping|] == mapping;
    ok := true;
  }

  lemma NoneAddedChain(a: Scene, b: Scene, c: Scene)
    requires NoneAdded(a, b) && NoneAdded(b, c)
    ensures NoneAdded(a, c)
  {
    hide AtMostOne;
  }

  lemma AlwaysNow(a: Scene, b: Scene)
    requires AlwaysSingles(a, b)
    ensures Singles(b)
  {
  }

  lemma NothingDone(start: Scene, env: Environment, key: NamespacedName, mapping: seq<(Pool, string)>)
    ensures AsEffective(start, start, key, mapping) && NoneAdded(start, start)
    ensures AllDone(start, start, env, key, mapping, []) && Within(start, start, Ids(mapping[..0]))
    ensures Singles(start) ==> AlwaysSingles(start, start)
  {
  }

  lemma RestWithin(a: Scene, b: Scene, mapping: seq<(Pool, string)>, n: nat)
    requires n <= |mapping| && Within(a, b, Ids(mapping[..n]))
    ensures Within(a, b, Ids(mapping))
  {
    hide Within;
    assert Ids(mapping[..n]) + Ids(mapping) == Ids(mapping) by {
      forall x | x in Ids(mapping[..n]) ensures x in Ids(mapping) {
        var i :| 0 <= i < n && mapping[..n][i].1 == x;
        assert mapping[i].1 == x;
      }
    }
    WithinSelf(b, Ids(mapping));
    WithinChain(a, b, b, Ids(mapping[..n]), Ids(mapping));
  }
}
