/** The three phases of the work on one pool: lines 150-189 of `Reconcile`. */
module Phases {
  import opened Api
  import opened Orders
  import opened Tables
  import opened Patching
  import opened Frames
  import opened Nodes
  import opened Zones
  import opened Statuses
  import L = Listeners
  import M = Monitors
  import B = Members

  lemma KeptLeads<T(!new)>(p: Plan<T>, before: map<string, T>, now: map<string, T>, goal: T)
    requires Kept(p, before, now, goal) && Leads(p, before, goal)
    ensures Leads(p, now, goal) && AtMostOne(now, p.mine)
  {
  }

  lemma NoNewStates<T(!new)>(log: seq<map<string, T>>, pool: T -> string)
    ensures AlwaysOnePerPool(log, |log|, pool)
  {
  }

  // ---------------------------------------------------------------- listeners

  /** The pool has its listener; if `settled`, there is nothing left to patch. */
  ghost predicate ListenerDone(rows: L.Rows, want: L.Listener, settled: bool) {
    exists id :: Only(rows, L.OfPool(want.pool), id) && L.Agrees(rows[id], want) &&
      (settled ==> L.Differences(rows[id], want) == 0)
  }

  /** No listener of the pool that can be patched differs from a zero wanted value. */
  ghost predicate ListenerEffective(rows: L.Rows, want: L.Listener) {
    forall id :: id in rows && rows[id].pool == want.pool && L.SameSocket(rows[id], want) ==>
      L.Effective(rows[id], want)
  }

  function PoolOfListener(): L.Listener -> string {
    (l: L.Listener) => l.pool
  }

  /** What a finished listener phase leaves. */
  lemma ListenerOutcome(before: L.Rows, now: L.Rows, want: L.Listener, id: string, goal: L.Listener)
    requires AtMostOne(before, L.OfPool(want.pool)) && Only(now, L.OfPool(want.pool), id) && now[id] == goal
    requires (forall i :: i in before ==> before[i].pool != want.pool) ==> goal == want
    requires forall i :: Only(before, L.OfPool(want.pool), i) ==> goal == L.Replaced(before[i], want)
    requires L.Agrees(goal, want)
    ensures ListenerDone(now, want, false) && (ListenerDone(now, want, true) <==> ListenerEffective(before, want))
  {
    assert ListenerDone(now, want, true) <==> L.SameSocket(goal, want) && L.Differences(goal, want) == 0;
    L.SelfAgrees(want);
    hide L.Differences, L.Effective, L.Merge;
    if i :| i in before && before[i].pool == want.pool {
      assert Only(before, L.OfPool(want.pool), i);
      L.MergeSettles(before[i], want);
      L.PartlyResumes(before[i], want, 4);
      assert ListenerEffective(before, want) <==> (L.SameSocket(before[i], want) ==> L.Effective(before[i], want));
    }
  }

  /** Whether the listener of a pool is effective is settled by what it is to become. */
  lemma ListenerEffectiveExactly(rows: L.Rows, want: L.Listener, goal: L.Listener)
    requires Sorted(Compare, want.allowedCIDRs) && Leads(L.ListenerPlan(want), rows, goal)
    ensures ListenerEffective(rows, want) <==> L.Differences(goal, want) == 0
  {
    var p := L.ListenerPlan(want);
    hide L.ListenerFields, L.Merge, L.Differences, L.Effective;
    L.SelfAgrees(want);
    if i :| i in rows && p.mine(rows[i]) {
      assert Final(p, rows[i]) == goal;
      L.WholeReplacement(rows[i], want);
      L.MergeSettles(rows[i], want);
      assert ListenerEffective(rows, want) <==> (L.SameSocket(rows[i], want) ==> L.Effective(rows[i], want));
    }
  }

  /** Every state left by a call is as effective as the start. */
  lemma ListenerStaysEffective(before: L.Rows, now: L.Rows, want: L.Listener, goal: L.Listener)
    requires Sorted(Compare, want.allowedCIDRs) && Leads(L.ListenerPlan(want), before, goal) &&
      Leads(L.ListenerPlan(want), now, goal)
    ensures ListenerEffective(before, want) <==> ListenerEffective(now, want)
  {
    hide Leads, ListenerEffective;
    ListenerEffectiveExactly(before, want, goal);
    ListenerEffectiveExactly(now, want, goal);
  }

  method ListenerPhase(t: Table<L.Listener>, key: NamespacedName, ours: Pool, theirs: string) returns (ok: bool)
    requires t.Valid()
    modifies t
    ensures t.Valid() && old(t.minted) <= t.minted
    ensures Framed(old(Now(t)), Now(t), L.OfPool(theirs))
    ensures OnePerPool(old(t.rows), PoolOfListener()) ==>
      OnePerPool(t.rows, PoolOfListener()) && AlwaysOnePerPool(t.log, |old(t.log)|, PoolOfListener())
    ensures ok ==> ListenerDone(t.rows, L.WantedListener(key, ours, theirs), false)
    ensures ok ==> (ListenerDone(t.rows, L.WantedListener(key, ours, theirs), true) <==>
                    ListenerEffective(old(t.rows), L.WantedListener(key, ours, theirs)))
    ensures ListenerEffective(old(t.rows), L.WantedListener(key, ours, theirs)) <==>
      ListenerEffective(t.rows, L.WantedListener(key, ours, theirs))
    ensures ListenerDone(old(t.rows), L.WantedListener(key, ours, theirs), true) ==> Now(t) == old(Now(t))
    ensures AtMostOne(old(t.rows), L.OfPool(theirs)) ==> AtMostOne(t.rows, L.OfPool(theirs))
    ensures t.failures >= old(t.failures) &&
      (t.failures == old(t.failures) ==> ok || !AtMostOne(old(t.rows), L.OfPool(theirs)))
  {
    hide Traced, AtMostOne, L.WantedListener, L.ListenerFields, Kept, AllKept, Framed, ListenerDone,
      ListenerEffective, OnePerPool, AlwaysOnePerPool,
      L.Differences, L.Agrees, L.Replaced;
    ghost var before, log := t.rows, t.log;
    ghost var want := L.WantedListener(key, ours, theirs);
    ghost var p := L.ListenerPlan(want);
    L.WantedOf(key, ours, theirs);
    ghost var goal, steps;
    var id;
    ok, id, goal, steps := L.EnsureListener(t, key, ours, theirs);
    if AtMostOne(before, L.OfPool(theirs)) {
      KeptFramed(p, before, log, t.rows, steps, goal);
      if OnePerPool(before, PoolOfListener()) {
        KeptAlwaysOne(p, before, log, t.rows, steps, goal, PoolOfListener(), theirs);
      }
      L.WantedSorted(key, ours, theirs);
      assert Leads(p, t.rows, goal) && Leads(p, before, goal) && AtMostOne(t.rows, p.mine) by {
        KeptLeads(p, before, t.rows, goal);
      }
      ListenerStaysEffective(before, t.rows, want, goal);
      if ok {
        ListenerOutcome(before, t.rows, want, id, goal);
      }
    } else {
      assert t.log == log;
      FramedSelf(Moment(before, log), L.OfPool(theirs));
      NoNewStates(log, PoolOfListener());
    }
    if ListenerDone(before, want, true) {
      ListenerQuiet(before, want, steps);
      assert t.log == log;
    }
  }

  lemma ListenerQuiet(before: L.Rows, want: L.Listener, steps: seq<L.Rows>)
    requires ListenerDone(before, want, true)
    requires forall i :: Only(before, L.OfPool(want.pool), i) && L.SameSocket(before[i], want) ==>
      |steps| <= L.Differences(before[i], want)
    ensures steps == []
  {
  }
  // ---------------------------------------------------------------- monitors

  /** The pool has its monitor; if `settled`, there is nothing left to patch. */
  ghost predicate MonitorDone(rows: M.Rows, want: M.Monitor, settled: bool) {
    exists id :: Only(rows, M.OfPool(want.pool), id) && M.Agrees(rows[id], want) &&
      (settled ==> M.Differences(rows[id], want) == 0)
  }

  /** No monitor of the pool that can be patched differs from a zero wanted value. */
  ghost predicate MonitorEffective(rows: M.Rows, want: M.Monitor) {
    forall id :: id in rows && rows[id].pool == want.pool && rows[id].kind == want.kind ==> M.Effective(rows[id], want)
  }

  function PoolOfMonitor(): M.Monitor -> string {
    (m: M.Monitor) => m.pool
  }

  /** What a finished monitor phase leaves. */
  lemma MonitorOutcome(before: M.Rows, now: M.Rows, want: M.Monitor, id: string, goal: M.Monitor)
    requires AtMostOne(before, M.OfPool(want.pool)) && Only(now, M.OfPool(want.pool), id) && now[id] == goal
    requires (forall i :: i in before ==> before[i].pool != want.pool) ==> goal == want
    requires forall i :: Only(before, M.OfPool(want.pool), i) ==> goal == M.Replaced(before[i], want)
    requires M.Agrees(goal, want)
    ensures MonitorDone(now, want, false) && (MonitorDone(now, want, true) <==> MonitorEffective(before, want))
  {
    assert MonitorDone(now, want, true) <==> goal.kind == want.kind && M.Differences(goal, want) == 0;
    M.SelfAgrees(want);
    hide M.Differences, M.Effective, M.Merge;
    if i :| i in before && before[i].pool == want.pool {
      assert Only(before, M.OfPool(want.pool), i);
      M.MergeSettles(before[i], want);
      assert MonitorEffective(before, want) <==> (before[i].kind == want.kind ==> M.Effective(before[i], want));
    }
  }

  /** Whether the monitor of a pool is effective is settled by what it is to become. */
  lemma MonitorEffectiveExactly(rows: M.Rows, want: M.Monitor, goal: M.Monitor)
    requires M.Request(want) && Leads(M.MonitorPlan(want), rows, goal)
    ensures MonitorEffective(rows, want) <==> M.Differences(goal, want) == 0
  {
    var p := M.MonitorPlan(want);
    hide M.MonitorFields, M.Merge, M.Differences, M.Effective;
    M.SelfAgrees(want);
    if i :| i in rows && p.mine(rows[i]) {
      assert Final(p, rows[i]) == goal;
      M.WholeReplacement(rows[i], want);
      M.MergeSettles(rows[i], want);
      assert MonitorEffective(rows, want) <==> (rows[i].kind == want.kind ==> M.Effective(rows[i], want));
    }
  }

  /** Every state left by a call is as effective as the start. */
  lemma MonitorStaysEffective(before: M.Rows, now: M.Rows, want: M.Monitor, goal: M.Monitor)
    requires M.Request(want) && Leads(M.MonitorPlan(want), before, goal) && Leads(M.MonitorPlan(want), now, goal)
    ensures MonitorEffective(before, want) <==> MonitorEffective(now, want)
  {
    hide Leads, MonitorEffective;
    MonitorEffectiveExactly(before, want, goal);
    MonitorEffectiveExactly(now, want, goal);
  }

  method MonitorPhase(t: Table<M.Monitor>, ours: Pool, theirs: string) returns (ok: bool)
    requires t.Valid()
    modifies t
    ensures t.Valid() && old(t.minted) <= t.minted
    ensures Framed(old(Now(t)), Now(t), M.OfPool(theirs))
    ensures OnePerPool(old(t.rows), PoolOfMonitor()) ==>
      OnePerPool(t.rows, PoolOfMonitor()) && AlwaysOnePerPool(t.log, |old(t.log)|, PoolOfMonitor())
    ensures ok ==> MonitorDone(t.rows, M.WantedMonitor(ours, theirs), false)
    ensures ok ==> (MonitorDone(t.rows, M.WantedMonitor(ours, theirs), true) <==>
                    MonitorEffective(old(t.rows), M.WantedMonitor(ours, theirs)))
    ensures MonitorEffective(old(t.rows), M.WantedMonitor(ours, theirs)) <==>
      MonitorEffective(t.rows, M.WantedMonitor(ours, theirs))
    ensures MonitorDone(old(t.rows), M.WantedMonitor(ours, theirs), true) ==> Now(t) == old(Now(t))
    ensures AtMostOne(old(t.rows), M.OfPool(theirs)) ==> AtMostOne(t.rows, M.OfPool(theirs))
    ensures t.failures >= old(t.failures) &&
      (t.failures == old(t.failures) ==> ok || !AtMostOne(old(t.rows), M.OfPool(theirs)))
  {
    hide Traced, AtMostOne, M.WantedMonitor, M.MonitorFields, Kept, AllKept, Framed, MonitorDone, MonitorEffective,
      OnePerPool, AlwaysOnePerPool,
      M.Differences, M.Agrees, M.Replaced;
    ghost var before, log := t.rows, t.log;
    ghost var want := M.WantedMonitor(ours, theirs);
    ghost var p := M.MonitorPlan(want);
    M.WantedIsRequest(ours, theirs);
    ghost var goal, steps;
    var id;
    ok, id, goal, steps := M.EnsureMonitor(t, ours, theirs);
    if AtMostOne(before, M.OfPool(theirs)) {
      KeptFramed(p, before, log, t.rows, steps, goal);
      if OnePerPool(before, PoolOfMonitor()) {
        KeptAlwaysOne(p, before, log, t.rows, steps, goal, PoolOfMonitor(), theirs);
      }
      assert Leads(p, t.rows, goal) && Leads(p, before, goal) && AtMostOne(t.rows, p.mine) by {
        KeptLeads(p, before, t.rows, goal);
      }
      MonitorStaysEffective(before, t.rows, want, goal);
      if ok {
        MonitorOutcome(before, t.rows, want, id, goal);
      }
    } else {
      assert t.log == log;
      FramedSelf(Moment(before, log), M.OfPool(theirs));
      NoNewStates(log, PoolOfMonitor());
    }
    if MonitorDone(before, want, true) {
      MonitorQuiet(before, want, steps);
      assert t.log == log;
    }
  }

  lemma MonitorQuiet(before: M.Rows, want: M.Monitor, steps: seq<M.Rows>)
    requires MonitorDone(before, want, true)
    requires forall i :: Only(before, M.OfPool(want.pool), i) && before[i].kind == want.kind ==>
      |steps| <= M.Differences(before[i], want)
    ensures steps == []
  {
  }

  // ---------------------------------------------------------------- members

  /** The wanted members of a pool, as far as the nodes can be listed. */
  ghost function WantedBy(env: Environment, key: NamespacedName, ours: Pool): seq<B.Request> {
    if found :| Selected(found, env.nodes, ours.backend.nodeSelector) then FromServers(key, ours,
        Backed(found, env.get)) else []
  }

  lemma WantedByIs(env: Environment, key: NamespacedName, ours: Pool, found: seq<Node>)
    requires Selected(found, env.nodes, ours.backend.nodeSelector)
    ensures WantedBy(env, key, ours) == FromServers(key, ours, Backed(found, env.get))
  {
    hide Selected, FromServers, Backed;
    var other :| Selected(other, env.nodes, ours.backend.nodeSelector) &&
      WantedBy(env, key, ours) == FromServers(key, ours, Backed(other, env.get));
    SelectedUnique(env.nodes, ours.backend.nodeSelector, found, other);
  }

  lemma AllEnabled(key: NamespacedName, ours: Pool, servers: seq<(Node, Server)>)
    ensures forall j :: 0 <= j < |FromServers(key, ours, servers)| ==>
      FromServers(key, ours, servers)[j].enabled == Some(true)
  {
    var should := FromServers(key, ours, servers);
    forall j | 0 <= j < |should| ensures should[j].enabled == Some(true) {
      WantedExactly(key, ours, servers, should[j]);
      hide FromServers, UsableAt;
    }
  }

  ghost predicate MembersDone(rows: B.Rows, theirs: string, env: Environment, key: NamespacedName, ours: Pool) {
    B.Idents(rows, theirs) == B.Desired(WantedBy(env, key, ours))
  }

  lemma MembersFramed(before: B.Rows, log: seq<B.Rows>, now: B.Rows, steps: seq<B.Rows>, pool: string,
                      goal: set<B.Identity>, strict: bool, ok: bool)
    requires B.Returned(before, steps, now, pool, goal, strict, ok)
    ensures Framed(Moment(before, log), Moment(now, log + steps), B.InPool(pool))
  {
    BetweenElsewhere(before, now, pool, goal);
    forall i | |log| <= i < |log + steps| ensures SameElsewhere(before, (log + steps)[i], B.InPool(pool)) {
      assert B.Between(before, steps[i - |log|], pool, goal);
      BetweenElsewhere(before, steps[i - |log|], pool, goal);
    }
  }

  lemma BetweenElsewhere(before: B.Rows, now: B.Rows, pool: string, goal: set<B.Identity>)
    requires B.Between(before, now, pool, goal)
    ensures SameElsewhere(before, now, B.InPool(pool))
  {
  }

  lemma Hidden(env: Environment, ls: LabelSelector)
    requires !(Converts(env, ls) && env.listable)
    ensures !PoolReadable(env, ls)
  {
  }

  /** Lines 160-189 for one pool. */
  method MemberPhase(t: Table<B.Member>, env: Environment, key: NamespacedName, ours: Pool, theirs: string)
    returns (ok: bool, backends: seq<StatusBackend>)
    requires t.Valid() && WellNamed(env.nodes)
    modifies t
    ensures t.Valid() && old(t.minted) <= t.minted
    ensures Framed(old(Now(t)), Now(t), B.InPool(theirs))
    ensures ok ==> MembersDone(t.rows, theirs, env, key, ours) && Reported(backends, t.rows, theirs)
    ensures MembersDone(old(t.rows), theirs, env, key, ours) ==> Now(t) == old(Now(t))
    ensures t.failures >= old(t.failures) &&
      (t.failures == old(t.failures) ==> ok || !PoolReadable(env, ours.backend.nodeSelector))
  {
    hide Traced, Framed, Selected, Backed, FromServers, B.Returned, B.Idents, B.Desired, Sorted, WantedBy, Converts,
      NoneFails, WellNamed, Enumerates, B.NoRepeats, OnePerPlace, PoolReadable, PoolZones, ServerZones;
    ok, backends := false, [];
    ghost var before, log := t.rows, t.log;
    FramedSelf(Moment(before, log), B.InPool(theirs));
    var found := MatchingNodes(env, ours.backend.nodeSelector);
    if found == None {
      Hidden(env, ours.backend.nodeSelector);
      return;
    }
    FoundZones(env, ours.backend.nodeSelector, found.value);
    var servers, warnings := ServersForNodes(found.value, env.get);
    if servers == None {
      return;
    }
    var should;
    ghost var at;
    should, at := WantedMembers(key, ours, servers.value);
    WantedByIs(env, key, ours, found.value);
    AllEnabled(key, ours, servers.value);
    var actual;
    ghost var steps;
    ok, actual, steps := B.EnsurePoolMembers(t, theirs, should);
    MembersFramed(before, log, t.rows, steps, theirs, B.Desired(should), B.NoRepeats(should), ok);
    if MembersDone(before, theirs, env, key, ours) {
      assert t.log == log;
    }
    if ok {
      backends := StatusBackends(actual);
    }
  }
}
