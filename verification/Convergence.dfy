/** Pools and their children together: when the work on them comes to rest. */
module Convergence {
  import opened Api
  import opened Tables
  import opened Patching
  import opened Frames
  import opened Nodes
  import opened Statuses
  import opened Children
  import L = Listeners
  import M = Monitors
  import B = Members
  import P = Pools

  /** The cloud pool `id` belongs to the `i`-th pool of the specification. */
  ghost predicate Belongs(pools: P.Rows, key: NamespacedName, uuid: string, ours: seq<Pool>, i: int, id: string) {
    0 <= i < |ours| && id in pools && pools[id] == P.WantedPool(key, uuid, ours[i])
  }

  /** Everything is as specified, and nothing is left to patch. */
  ghost predicate Settled(pools: P.Rows, s: Scene, env: Environment, key: NamespacedName, uuid: string,
                          ours: seq<Pool>) {
    && P.Converged(pools, uuid, P.WantedPools(key, uuid, ours)) && P.Unique(pools, uuid)
    && forall i, id :: Belongs(pools, key, uuid, ours, i, id) ==> PoolDone(s, env, key, ours[i], id, true)
  }

  /** Everything agrees with the specification wherever it asks for something. */
  ghost predicate Matching(pools: P.Rows, s: Scene, env: Environment, key: NamespacedName, uuid: string,
                           ours: seq<Pool>) {
    && P.Converged(pools, uuid, P.WantedPools(key, uuid, ours)) && P.Unique(pools, uuid)
    && forall i, id :: Belongs(pools, key, uuid, ours, i, id) ==> PoolDone(s, env, key, ours[i], id, false)
  }

  /** No child of a wanted pool differs from a zero wanted value. */
  ghost predicate Effective(pools: P.Rows, s: Scene, key: NamespacedName, uuid: string, ours: seq<Pool>) {
    forall i, id :: Belongs(pools, key, uuid, ours, i, id) ==> PoolEffective(s, key, ours[i], id)
  }

  /** The work on one of the wanted pools runs into an error that is no failed call. */
  ghost predicate PoolBlocked(pools: P.Rows, s: Scene, env: Environment, key: NamespacedName, uuid: string,
                              ours: seq<Pool>) {
    exists i, id :: Belongs(pools, key, uuid, ours, i, id) && Blocked(s, env, ours[i], id)
  }

  /** Children refer to pools that exist or existed. */
  ghost predicate Rooted(minted: set<string>, s: Scene) {
    && (forall id :: id in s.listeners.rows ==> s.listeners.rows[id].pool in minted)
    && (forall id :: id in s.monitors.rows ==> s.monitors.rows[id].pool in minted)
  }

  /** The reported pools: names and backends, in the order of the specification. */
  ghost predicate AllReported(status: seq<StatusPool>, pools: P.Rows, members: B.Rows, key: NamespacedName,
                              uuid: string, ours: seq<Pool>) {
    |status| == |ours| && forall i :: 0 <= i < |ours| ==> ReportedAt(status[i], pools, members, key, uuid, ours, i)
  }

  ghost predicate ReportedAt(status: StatusPool, pools: P.Rows, members: B.Rows, key: NamespacedName, uuid: string,
                             ours: seq<Pool>, i: int) {
    && 0 <= i < |ours| && status.name == ours[i].name
    && exists id :: Belongs(pools, key, uuid, ours, i, id) && Reported(status.backends, members, id)
  }

  ghost predicate AllDistinguished(pools: P.Rows, members: B.Rows, uuid: string) {
    forall id :: id in pools && pools[id].lb == uuid ==> Distinguished(members, id)
  }

  /** Computing the status again on the same cloud gives the same status. */
  lemma StatusUnique(a: seq<StatusPool>, b: seq<StatusPool>, pools: P.Rows, members: B.Rows, key: NamespacedName,
                     uuid: string, ours: seq<Pool>)
    requires AllReported(a, pools, members, key, uuid, ours) && AllReported(b, pools, members, key, uuid, ours)
    requires P.Unique(pools, uuid) && AllDistinguished(pools, members, uuid)
    ensures a == b
  {
    hide Reported, Distinguished;
    forall i | 0 <= i < |ours| ensures a[i] == b[i] {
      assert ReportedAt(a[i], pools, members, key, uuid, ours, i) &&
        ReportedAt(b[i], pools, members, key, uuid, ours, i);
      var x :| Belongs(pools, key, uuid, ours, i, x) && Reported(a[i].backends, members, x);
      var y :| Belongs(pools, key, uuid, ours, i, y) && Reported(b[i].backends, members, y);
      assert x == y;
      ReportedUnique(a[i].backends, b[i].backends, members, x);
    }
  }

  lemma PoolsFramed(before: P.Rows, log: seq<P.Rows>, now: P.Rows, steps: seq<P.Rows>, uuid: string,
                    should: seq<P.CloudPool>)
    requires P.Underway(before, steps, now, uuid, should)
    ensures Framed(Moment(before, log), Moment(now, log + steps), P.OfLb(uuid))
  {
    PoolsElsewhere(before, now, uuid, should);
    forall i | |log| <= i < |log + steps| ensures SameElsewhere(before, (log + steps)[i], P.OfLb(uuid)) {
      assert P.Between(before, steps[i - |log|], uuid, should);
      PoolsElsewhere(before, steps[i - |log|], uuid, should);
    }
  }

  lemma PoolsElsewhere(before: P.Rows, now: P.Rows, uuid: string, should: seq<P.CloudPool>)
    requires P.Between(before, now, uuid, should)
    ensures SameElsewhere(before, now, P.OfLb(uuid))
  {
  }

  /** The mapping covers exactly the pools that belong to the specification. */
  lemma MappedExactly(pools: P.Rows, key: NamespacedName, uuid: string, ours: seq<Pool>, mapping: seq<(Pool, string)>,
                      i: int, id: string)
    requires P.Maps(pools, P.WantedPools(key, uuid, ours), ours, mapping) && 0 <= i < |ours|
    ensures mapping[i].0 == ours[i] && Belongs(pools, key, uuid, ours, i, mapping[i].1)
    ensures P.Unique(pools, uuid) && Belongs(pools, key, uuid, ours, i, id) ==> id == mapping[i].1
  {
  }

  lemma SettledMapping(pools: P.Rows, s: Scene, env: Environment, key: NamespacedName, uuid: string, ours: seq<Pool>,
                       mapping: seq<(Pool, string)>)
    requires Settled(pools, s, env, key, uuid, ours) && P.Maps(pools, P.WantedPools(key, uuid, ours), ours, mapping)
    ensures AllSettled(s, env, key, mapping)
  {
    hide PoolDone, P.WantedPools, P.Converged, P.Unique;
    forall j | 0 <= j < |mapping| ensures PoolDone(s, env, key, mapping[j].0, mapping[j].1, true) {
      MappedExactly(pools, key, uuid, ours, mapping, j, "");
    }
  }

  /** A pool created just now has no children. */
  lemma NewPoolEffective(minted: set<string>, s: Scene, key: NamespacedName, ours: Pool, id: string)
    requires Rooted(minted, s) && id !in minted
    ensures PoolEffective(s, key, ours, id)
  {
  }

  lemma MappedInjective(before: P.Rows, key: NamespacedName, uuid: string, ours: seq<Pool>,
                        mapping: seq<(Pool, string)>)
    requires P.DistinctNames(ours) && P.Shares(before, P.WantedPools(key, uuid, ours), mapping)
    ensures Injective(mapping)
  {
    forall i, j | 0 <= i < j < |mapping| ensures mapping[i].1 != mapping[j].1 {
      P.MappingInjective(before, key, uuid, ours, mapping, i, j);
    }
  }

  /** Where the mapped pools come from: they were there before, or they are new. */
  lemma Origin(before: P.Rows, pools: P.Rows, key: NamespacedName, uuid: string, ours: seq<Pool>, i: int, id: string)
    requires P.Between(before, pools, uuid, P.WantedPools(key, uuid, ours))
    ensures Belongs(before, key, uuid, ours, i, id) ==> Belongs(pools, key, uuid, ours, i, id)
    ensures Belongs(pools, key, uuid, ours, i, id) && id in before ==> Belongs(before, key, uuid, ours, i, id)
  {
    if Belongs(before, key, uuid, ours, i, id) {
      assert P.WantedPools(key, uuid, ours)[i] == before[id];
    }
  }

  /** After a successful run, everything is settled exactly if everything was effective. */
  lemma SettledExactly(before: P.Rows, minted: set<string>, pools: P.Rows, start: Scene, now: Scene, env: Environment,
                       key: NamespacedName, uuid: string, ours: seq<Pool>, mapping: seq<(Pool, string)>,
                       status: seq<StatusPool>)
    requires P.Between(before, pools, uuid, P.WantedPools(key, uuid, ours)) && P.Unique(pools, uuid)
    requires P.Converged(pools, uuid, P.WantedPools(key, uuid, ours)) &&
      P.Maps(pools, P.WantedPools(key, uuid, ours), ours, mapping)
    requires AllDone(start, now, env, key, mapping, status) && |status| == |mapping|
    requires Rooted(minted, start) && forall i :: 0 <= i < |mapping| ==>
      mapping[i].1 in before || mapping[i].1 !in minted
    ensures Matching(pools, now, env, key, uuid, ours)
    ensures Settled(pools, now, env, key, uuid, ours) <==> Effective(before, start, key, uuid, ours)
    ensures AllReported(status, pools, now.members.rows, key, uuid, ours)
  {
    hide P.Between, P.Unique, P.Converged, P.Maps, P.WantedPools, P.WantedPool, PoolDone, PoolEffective, Reported,
      Rooted;
    forall i | 0 <= i < |ours|
      ensures |mapping| == |ours| && DoneAt(start, now, env, key, (ours[i], mapping[i].1), status[i])
      ensures Belongs(pools, key, uuid, ours, i, mapping[i].1)
      ensures mapping[i].1 !in before ==> PoolEffective(start, key, ours[i], mapping[i].1)
      ensures ReportedAt(status[i], pools, now.members.rows, key, uuid, ours, i)
    {
      MappedLength(pools, key, uuid, ours, mapping);
      MappedExactly(pools, key, uuid, ours, mapping, i, "");
      assert DoneAt(start, now, env, key, mapping[i], status[i]);
      if mapping[i].1 !in before {
        NewPoolEffective(minted, start, key, ours[i], mapping[i].1);
      }
    }
    MappedLength(pools, key, uuid, ours, mapping);
    forall i, id | Belongs(pools, key, uuid, ours, i, id) ensures id == mapping[i].1 {
      MappedExactly(pools, key, uuid, ours, mapping, i, id);
    }
    forall i, id ensures Belongs(before, key, uuid, ours, i, id) <==>
      Belongs(pools, key, uuid, ours, i, id) && id in before {
      Origin(before, pools, key, uuid, ours, i, id);
    }
  }

  lemma MappedLength(pools: P.Rows, key: NamespacedName, uuid: string, ours: seq<Pool>, mapping: seq<(Pool, string)>)
    requires P.Maps(pools, P.WantedPools(key, uuid, ours), ours, mapping)
    ensures |mapping| == |ours|
  {
  }

  lemma RootedKept(minted: set<string>, more: set<string>, a: Scene, b: Scene, ids: set<string>)
    requires Rooted(minted, a) && minted <= more && ids <= more && Within(a, b, ids)
    ensures Rooted(more, b)
  {
    forall id | id in b.listeners.rows ensures b.listeners.rows[id].pool in more {
      if b.listeners.rows[id].pool !in ids {
        assert !ListenersOf(ids)(b.listeners.rows[id]);
      }
    }
    forall id | id in b.monitors.rows ensures b.monitors.rows[id].pool in more {
      if b.monitors.rows[id].pool !in ids {
        assert !MonitorsOf(ids)(b.monitors.rows[id]);
      }
    }
  }

  /** The cloud pools `ids` are pools of the load balancer. */
  ghost predicate Owns(pools: P.Rows, uuid: string, ids: set<string>) {
    forall id :: id in ids ==> id in pools && pools[id].lb == uuid
  }

  lemma MappedOwned(pools: P.Rows, key: NamespacedName, uuid: string, ours: seq<Pool>, mapping: seq<(Pool, string)>)
    requires P.Maps(pools, P.WantedPools(key, uuid, ours), ours, mapping)
    ensures Owns(pools, uuid, Ids(mapping))
  {
    forall id | id in Ids(mapping) ensures id in pools && pools[id].lb == uuid {
      var i :| 0 <= i < |mapping| && mapping[i].1 == id;
      P.WantedOfLb(key, uuid, ours);
    }
  }

  lemma MappedNew(before: P.Rows, minted: set<string>, pools: P.Rows, key: NamespacedName, uuid: string,
                  ours: seq<Pool>, mapping: seq<(Pool, string)>)
    requires P.Maps(pools, P.WantedPools(key, uuid, ours), ours, mapping) && P.NewIds(before, minted, pools)
    ensures forall i :: 0 <= i < |mapping| ==> mapping[i].1 in before || mapping[i].1 !in minted
  {
  }

  /** What the start has to satisfy for the run to come to rest. */
  ghost predicate Tidy(pools: P.Rows, minted: set<string>, s: Scene, uuid: string, ours: seq<Pool>) {
    P.DistinctNames(ours) && P.Unique(pools, uuid) && Rooted(minted, s)
  }

  lemma StayUnique(before: P.Rows, steps: seq<P.Rows>, pools: P.Rows, key: NamespacedName, uuid: string,
                   ours: seq<Pool>)
    requires P.Underway(before, steps, pools, uuid, P.WantedPools(key, uuid, ours)) && P.DistinctNames(ours) &&
      P.Unique(before, uuid)
    ensures P.Between(before, pools, uuid, P.WantedPools(key, uuid, ours)) && P.Unique(pools, uuid)
  {
    P.NamesSeparate(key, uuid, ours, P.WantedPools(key, uuid, ours));
  }

  /** Changing the pools alone keeps everything effective: a kept pool has its children, a new one has none. */
  lemma PoolsStayEffective(before: P.Rows, minted: set<string>, pools: P.Rows, s: Scene, key: NamespacedName,
                           uuid: string, ours: seq<Pool>)
    requires P.Between(before, pools, uuid, P.WantedPools(key, uuid, ours)) && P.NewIds(before, minted, pools) &&
      Rooted(minted, s)
    requires Effective(before, s, key, uuid, ours)
    ensures Effective(pools, s, key, uuid, ours)
  {
    hide PoolEffective, P.WantedPools, P.WantedPool, Rooted, P.Between;
    forall i, id | Belongs(pools, key, uuid, ours, i, id) ensures PoolEffective(s, key, ours[i], id) {
      if id in before {
        Origin(before, pools, key, uuid, ours, i, id);
      } else {
        NewPoolEffective(minted, s, key, ours[i], id);
      }
    }
  }

  /** So does work on the mapped pools. */
  lemma ChildrenStayEffective(pools: P.Rows, start: Scene, now: Scene, key: NamespacedName, uuid: string,
                              ours: seq<Pool>, mapping: seq<(Pool, string)>)
    requires P.Maps(pools, P.WantedPools(key, uuid, ours), ours, mapping) && P.Unique(pools, uuid)
    requires AsEffective(start, now, key, mapping) && Effective(pools, start, key, uuid, ours)
    ensures Effective(pools, now, key, uuid, ours)
  {
    hide PoolEffective, P.WantedPools, P.WantedPool, P.Maps, P.Unique;
    forall i, id | Belongs(pools, key, uuid, ours, i, id) ensures PoolEffective(now, key, ours[i], id) {
      MappedLength(pools, key, uuid, ours, mapping);
      MappedExactly(pools, key, uuid, ours, mapping, i, id);
      assert PoolEffective(start, key, mapping[i].0, mapping[i].1);
    }
  }

  /** After the pools, before their children. */
  lemma AfterPools(before: P.Rows, minted: set<string>, steps: seq<P.Rows>, pools: P.Rows, more: set<string>,
                   start: Scene,
                   key: NamespacedName, uuid: string, ours: seq<Pool>)
    requires P.Underway(before, steps, pools, uuid, P.WantedPools(key, uuid, ours)) &&
      P.NewIds(before, minted, pools) && minted <= more
    ensures Tidy(before, minted, start, uuid, ours) ==> Tidy(pools, more, start, uuid, ours)
    ensures Tidy(before, minted, start, uuid, ours) && Effective(before, start, key, uuid, ours) ==>
      Effective(pools, start, key, uuid, ours)
  {
    hide Effective, P.Underway, P.NewIds, P.Between, P.Unique, P.DistinctNames, P.WantedPools, Rooted, Within;
    if Tidy(before, minted, start, uuid, ours) {
      StayUnique(before, steps, pools, key, uuid, ours);
      WithinSelf(start, {});
      RootedKept(minted, more, start, start, {});
      if Effective(before, start, key, uuid, ours) {
        PoolsStayEffective(before, minted, pools, start, key, uuid, ours);
      }
    }
  }

  /** After the children, whatever the outcome. */
  lemma AfterChildren(before: P.Rows, minted: set<string>, steps: seq<P.Rows>, pools: P.Rows, more: set<string>,
                      start: Scene, now: Scene,
                      env: Environment, key: NamespacedName, uuid: string, ours: seq<Pool>,
                      mapping: seq<(Pool, string)>)
    requires P.Underway(before, steps, pools, uuid, P.WantedPools(key, uuid, ours)) &&
      P.NewIds(before, minted, pools) && minted <= more
    requires P.Maps(pools, P.WantedPools(key, uuid, ours), ours, mapping) &&
      P.Shares(before, P.WantedPools(key, uuid, ours), mapping)
    requires Within(start, now, Ids(mapping)) && pools.Keys <= more &&
      (Injective(mapping) ==> AsEffective(start, now, key, mapping))
    ensures Tidy(before, minted, start, uuid, ours) ==> Tidy(pools, more, now, uuid, ours) && Injective(mapping)
    ensures Tidy(before, minted, start, uuid, ours) && Effective(before, start, key, uuid, ours) ==>
      Effective(pools, now, key, uuid, ours)
  {
    hide Effective, P.Underway, P.NewIds, P.Between, P.Unique, P.DistinctNames, P.WantedPools, Rooted, Within, P.Maps,
      P.Shares, Ids, Injective,
      AsEffective, Owns;
    AfterPools(before, minted, steps, pools, more, start, key, uuid, ours);
    if Tidy(before, minted, start, uuid, ours) {
      MappedOwned(pools, key, uuid, ours, mapping);
      OwnedMinted(pools, more, uuid, Ids(mapping));
      RootedKept(minted, more, start, now, Ids(mapping));
      MappedInjective(before, key, uuid, ours, mapping);
      if Effective(before, start, key, uuid, ours) {
        ChildrenStayEffective(pools, start, now, key, uuid, ours, mapping);
      }
    }
  }

  /** After all calls have been answered. */
  lemma Concluded(before: P.Rows, minted: set<string>, steps: seq<P.Rows>, pools: P.Rows, start: Scene, now: Scene,
                  env: Environment, key: NamespacedName, uuid: string, ours: seq<Pool>, mapping: seq<(Pool, string)>,
                  status: seq<StatusPool>)
    requires P.Underway(before, steps, pools, uuid, P.WantedPools(key, uuid, ours)) && P.NewIds(before, minted, pools)
    requires P.Maps(pools, P.WantedPools(key, uuid, ours), ours, mapping) &&
      P.Converged(pools, uuid, P.WantedPools(key, uuid, ours))
    requires Tidy(before, minted, start, uuid, ours) && AllDone(start, now, env, key, mapping, status) &&
      |status| == |mapping|
    ensures Matching(pools, now, env, key, uuid, ours) && AllReported(status, pools, now.members.rows, key, uuid, ours)
    ensures Settled(pools, now, env, key, uuid, ours) <==> Effective(before, start, key, uuid, ours)
  {
    hide Effective, P.Underway, P.NewIds, P.Between, P.Unique, P.DistinctNames, P.WantedPools, Rooted, P.Maps,
      P.Converged, AllDone, Matching,
      AllReported, Settled;
    StayUnique(before, steps, pools, key, uuid, ours);
    MappedNew(before, minted, pools, key, uuid, ours, mapping);
    SettledExactly(before, minted, pools, start, now, env, key, uuid, ours, mapping, status);
  }

  /** The child phase of one load balancer.  It touches only its own pools and their children; it keeps one
      listener and one monitor per pool in every state; whatever its outcome it keeps the conditions for coming
      to rest; it ends with everything as specified, settled exactly if no child differed from a zero wanted
      value; and settled it does nothing. */
  method EnsureChildren(pools: Table<P.CloudPool>, listeners: Table<L.Listener>, monitors: Table<M.Monitor>,
                        members: Table<B.Member>,
                        env: Environment, key: NamespacedName, uuid: string, ours: seq<Pool>)
    returns (ok: bool, status: seq<StatusPool>, ghost ids: set<string>)
    requires pools.Valid() && listeners.Valid() && monitors.Valid() && members.Valid() && WellNamed(env.nodes)
    modifies pools, listeners, monitors, members
    ensures pools.Valid() && listeners.Valid() && monitors.Valid() && members.Valid() &&
      old(pools.minted) <= pools.minted
    ensures Framed(old(Now(pools)), Now(pools), P.OfLb(uuid))
    ensures Within(old(View(listeners, monitors, members)), View(listeners, monitors, members), ids) &&
      Owns(pools.rows, uuid, ids)
    ensures Singles(old(View(listeners, monitors, members))) ==>
      AlwaysSingles(old(View(listeners, monitors, members)), View(listeners, monitors, members))
    ensures Tidy(old(pools.rows), old(pools.minted), old(View(listeners, monitors, members)), uuid, ours) ==>
      && Tidy(pools.rows, pools.minted, View(listeners, monitors, members), uuid, ours)
      && (Effective(old(pools.rows), old(View(listeners, monitors, members)), key, uuid, ours) ==>
            Effective(pools.rows, View(listeners, monitors, members), key, uuid, ours))
    ensures ok && Tidy(old(pools.rows), old(pools.minted), old(View(listeners, monitors, members)), uuid, ours) ==>
      && Matching(pools.rows, View(listeners, monitors, members), env, key, uuid, ours)
      && AllReported(status, pools.rows, members.rows, key, uuid, ours)
      && (Settled(pools.rows, View(listeners, monitors, members), env, key, uuid, ours) <==>
          Effective(old(pools.rows), old(View(listeners, monitors, members)), key, uuid, ours))
    ensures Settled(old(pools.rows), old(View(listeners, monitors, members)), env, key, uuid, ours) ==>
      && Now(pools) == old(Now(pools)) && pools.minted == old(pools.minted)
      && View(listeners, monitors, members) == old(View(listeners, monitors, members))
    ensures pools.failures >= old(pools.failures)
    ensures Failures(listeners, monitors, members) >= old(Failures(listeners, monitors, members))
    ensures !ok ==>
      || pools.failures > old(pools.failures)
      || Failures(listeners, monitors, members) > old(Failures(listeners, monitors, members))
      || PoolBlocked(pools.rows, old(View(listeners, monitors, members)), env, key, uuid, ours)
  {
    hide Traced, Framed, Within, Owns, Singles, AlwaysSingles, Matching, AllReported, Effective, Tidy, P.Underway,
      P.Converged, P.Maps, P.Shares, P.NewIds,
      P.Between, P.Unique, AllDone, AllSettled, WellNamed, Injective, P.DistinctNames, P.WantedPools, Rooted,
      Ids, AsEffective, Settled, SomeBlocked, PoolBlocked;
    ghost var start, before, log, minted := View(listeners, monitors, members), pools.rows, pools.log, pools.minted;
    ghost var should := P.WantedPools(key, uuid, ours);
    ids, status := {}, [];
    NoChildChanged(start, env, key);
    var mapping;
    ghost var steps;
    ok, mapping, steps := P.EnsurePools(pools, key, uuid, ours);
    PoolsFramed(before, log, pools.rows, steps, uuid, should);
    AfterPools(before, minted, steps, pools.rows, pools.minted, start, key, uuid, ours);
    OwnsNone(pools.rows, uuid);
    if Settled(before, start, env, key, uuid, ours) {
      assert P.Converged(before, uuid, should) by { SettledConverged(before, start, env, key, uuid, ours); }
      assert pools.log == log;
    }
    if !ok {
      return;
    }
    ids := Ids(mapping);
    MappedOwned(pools.rows, key, uuid, ours, mapping);
    if Settled(before, start, env, key, uuid, ours) {
      SettledMapping(before, start, env, key, uuid, ours, mapping);
    }
    ok, status := EnsureEachPool(listeners, monitors, members, env, key, mapping);
    ghost var now := View(listeners, monitors, members);
    if SomeBlocked(start, env, mapping) {
      MappedBlocked(pools.rows, start, env, key, uuid, ours, mapping);
    }
    AfterChildren(before, minted, steps, pools.rows, pools.minted, start, now, env, key, uuid, ours, mapping);
    if ok && Tidy(before, minted, start, uuid, ours) {
      Concluded(before, minted, steps, pools.rows, start, now, env, key, uuid, ours, mapping, status);
    }
  }

  lemma MappedBlocked(pools: P.Rows, s: Scene, env: Environment, key: NamespacedName, uuid: string, ours: seq<Pool>,
                      mapping: seq<(Pool, string)>)
    requires SomeBlocked(s, env, mapping) && P.Maps(pools, P.WantedPools(key, uuid, ours), ours, mapping)
    ensures PoolBlocked(pools, s, env, key, uuid, ours)
  {
    hide Blocked, P.WantedPools, P.Maps;
    var j :| 0 <= j < |mapping| && Blocked(s, env, mapping[j].0, mapping[j].1);
    MappedLength(pools, key, uuid, ours, mapping);
    MappedExactly(pools, key, uuid, ours, mapping, j, "");
  }

  lemma NoChildChanged(s: Scene, env: Environment, key: NamespacedName)
    ensures Within(s, s, {}) && (Singles(s) ==> AlwaysSingles(s, s))
  {
    WithinSelf(s, {});
    NothingDone(s, env, key, []);
  }

  lemma SettledConverged(pools: P.Rows, s: Scene, env: Environment, key: NamespacedName, uuid: string, ours: seq<Pool>)
    requires Settled(pools, s, env, key, uuid, ours)
    ensures P.Converged(pools, uuid, P.WantedPools(key, uuid, ours))
  {
  }

  lemma OwnsNone(pools: P.Rows, uuid: string)
    ensures Owns(pools, uuid, {})
  {
  }

  lemma OwnedMinted(pools: P.Rows, minted: set<string>, uuid: string, ids: set<string>)
    requires Owns(pools, uuid, ids) && pools.Keys <= minted
    ensures ids <= minted
  {
  }
}
