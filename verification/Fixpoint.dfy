/** Sequences of runs: at most two without error come to rest, and then nothing changes any more. */
module Fixpoint {
  import opened Api
  import opened Nodes
  import opened Zones
  import opened Children
  import opened Convergence
  import opened FloatingIps
  import opened LoadBalancers
  import opened Reconcile
  import Lifecycle
  import LifecycleTheorems
  import S = Simulation

  /** The cloud is favourable for whichever load balancer the object names or is going to name. */
  ghost predicate Auspicious(w: World) {
    && Living(w.manifest) && Zoned(w.lbs.rows)
    && forall u :: w.manifest.value.spec.uuid == "" || u == w.manifest.value.spec.uuid ==>
         Favourable(w, w.manifest.value.key, w.manifest.value.spec, u)
  }

  /** Runs one after another, with their outcomes and the nodes and servers each of them finds. */
  ghost predicate Runs(ws: seq<World>, outcomes: seq<Outcome>, envs: seq<Environment>) {
    && |ws| == |outcomes| + 1 && |envs| == |outcomes|
    && forall i :: 0 <= i < |outcomes| ==> RunStep(ws[i], ws[i + 1], envs[i], outcomes[i])
  }

  predicate Clean(outcome: Outcome) {
    outcome != Aborted && outcome != Changing
  }

  /** The conditions for coming to rest survive every run, failed ones included. */
  lemma AuspiciousStays(w: World, next: World, env: Environment, outcome: Outcome)
    requires Auspicious(w) && RunStep(w, next, env, outcome)
    ensures Auspicious(next) && (Named(w) ==> Named(next))
  {
    hide Favourable, Isolated, Leaves, Quiet, OnlyEnsured, OnlySwept;
    var lb, now := w.manifest.value, next.manifest.value;
    if Recorded(w.manifest) {
      assert Favourable(w, lb.key, lb.spec, lb.spec.uuid);
    } else {
      forall u ensures Favourable(next, now.key, now.spec, u) {
        assert Favourable(w, lb.key, lb.spec, u);
        SameFavourable(w, next, lb, now, u);
      }
    }
  }

  /** The object names its load balancer and its zone. */
  ghost predicate Named(w: World) {
    w.manifest.Some? && w.manifest.value.spec.uuid != "" && w.manifest.value.spec.zone != ""
  }

  /** A clean run finishes at rest, or fills in what was missing. */
  lemma CleanRun(w: World, next: World, env: Environment, outcome: Outcome)
    requires Auspicious(w) && RunStep(w, next, env, outcome) && Clean(outcome)
    ensures outcome in {Requeued, Finished} && Named(next)
    ensures outcome == Finished ==> Resting(next, env) && StatusCurrent(next)
    ensures Named(w) ==> outcome == Finished
  {
    hide Favourable, Isolated, AtRest, StatusCurrent, Tidied, Matching, Managed, OnlyEnsured, OnlySwept, Mine;
    assert Favourable(w, w.manifest.value.key, w.manifest.value.spec, w.manifest.value.spec.uuid);
  }

  /** Rest lasts, whatever the outcome of the next run. */
  lemma RestLasts(w: World, next: World, env: Environment, outcome: Outcome)
    requires Resting(w, env) && RunStep(w, next, env, outcome)
    ensures Resting(next, env) && SameCloud(w, next)
    ensures outcome == Finished ==> StatusCurrent(next)
    ensures ToldApart(next) <==> ToldApart(w)
    ensures StatusCurrent(w) && ToldApart(w) ==> next == w
  {
    hide Bounded, StatusCurrent, Matching, Favourable, Settled, Attached, Tidy, AllDistinguished;
  }

  /** Throughout a course of runs that fail at will, the conditions hold, and what is named stays named. */
  lemma {:induction false} AuspiciousThroughout(ws: seq<World>, outcomes: seq<Outcome>, envs: seq<Environment>,
                                                i: nat, n: nat)
    requires Runs(ws, outcomes, envs) && i <= n < |ws| && Auspicious(ws[i])
    ensures Auspicious(ws[n]) && (Named(ws[i]) ==> Named(ws[n]))
    decreases n - i
  {
    hide RunStep, Auspicious;
    if i < n {
      AuspiciousThroughout(ws, outcomes, envs, i, n - 1);
      AuspiciousStays(ws[n - 1], ws[n], envs[n - 1], outcomes[n - 1]);
    }
  }

  /** Two clean runs, with any number of failed ones before and between them, bring everything to rest: the second
      one finishes, and the children and the status are as specified. */
  lemma TwoRunsRest(ws: seq<World>, outcomes: seq<Outcome>, envs: seq<Environment>, j: nat, k: nat)
    requires Runs(ws, outcomes, envs) && Auspicious(ws[0])
    requires j < k < |outcomes| && Clean(outcomes[j]) && Clean(outcomes[k])
    ensures outcomes[k] == Finished && Resting(ws[k + 1], envs[k]) && StatusCurrent(ws[k + 1])
  {
    hide RunStep, Auspicious, Named, Resting, StatusCurrent;
    AuspiciousThroughout(ws, outcomes, envs, 0, j);
    CleanRun(ws[j], ws[j + 1], envs[j], outcomes[j]);
    AuspiciousThroughout(ws, outcomes, envs, 0, j + 1);
    AuspiciousThroughout(ws, outcomes, envs, j + 1, k);
    CleanRun(ws[k], ws[k + 1], envs[k], outcomes[k]);
  }

  /** The fixpoint: once two runs of a course were clean, no further run, clean or not, makes a call that changes the
      cloud, as long as nodes and servers are the same; and if the members are told apart by node and address, none
      writes the object or its status either. */
  lemma {:induction false} FixpointReached(ws: seq<World>, outcomes: seq<Outcome>, envs: seq<Environment>, j: nat,
                                           k: nat, i: nat)
    requires Runs(ws, outcomes, envs) && Auspicious(ws[0])
    requires j < k < |outcomes| && Clean(outcomes[j]) && Clean(outcomes[k])
    requires k < i < |ws| && forall m :: k < m < i ==> envs[m] == envs[k]
    ensures Resting(ws[i], envs[k]) && SameCloud(ws[k + 1], ws[i])
    ensures ToldApart(ws[k + 1]) ==> ws[i] == ws[k + 1] && StatusCurrent(ws[i])
    decreases i
  {
    hide RunStep, Resting, StatusCurrent, Auspicious, ToldApart;
    TwoRunsRest(ws, outcomes, envs, j, k);
    if i > k + 1 {
      FixpointReached(ws, outcomes, envs, j, k, i - 1);
      assert envs[i - 1] == envs[k];
      RestLasts(ws[i - 1], ws[i], envs[i - 1], outcomes[i - 1]);
    }
  }

  /** At rest the cloud is as specified: wanted pools and no others, one agreeing listener and monitor per
      pool, exactly the wanted members, and every wanted floating IP attached. */
  lemma RestIsMatching(w: World, env: Environment)
    requires Resting(w, env)
    ensures var lb := w.manifest.value;
      && Matching(w.pools.rows, w.scene, env, lb.key, lb.spec.uuid, lb.spec.pools)
      && Attached(w.attached, lb.spec.floatingIPs, |lb.spec.floatingIPs|, lb.spec.uuid)
  {
    var lb := w.manifest.value;
    hide Attached;
    forall i, id | Belongs(w.pools.rows, lb.key, lb.spec.uuid, lb.spec.pools, i, id)
      ensures PoolDone(w.scene, env, lb.key, lb.spec.pools[i], id, false) {
      assert PoolDone(w.scene, env, lb.key, lb.spec.pools[i], id, true);
    }
  }

  /** Runs the controller until two runs were clean, retrying up to `patience` failed ones, and then as often as one
      likes. */
  method RunAndRest(c: Controller, env: Environment, patience: nat, further: nat)
    returns (clean: nat, ghost rested: World)
    requires c.Valid() && WellNamed(env.nodes) && Auspicious(c.Moments())
    modifies c.store, c.lbs, c.pools, c.listeners, c.monitors, c.members, c.fips
    ensures clean >= 2 ==> Resting(rested, env) && StatusCurrent(rested) && SameCloud(rested, c.Moments())
    ensures clean >= 2 && ToldApart(rested) ==> c.Moments() == rested
  {
    hide WellNamed, RunStep, Auspicious, Resting, StatusCurrent, ToldApart, SameCloud, Named;
    clean := 0;
    rested := c.Moments();
    var failed := 0;
    while clean < 2 && failed <= patience
      invariant clean <= 2 && c.Valid() && Auspicious(c.Moments())
      invariant clean >= 1 ==> Named(c.Moments())
      invariant clean >= 2 ==> Resting(c.Moments(), env) && StatusCurrent(c.Moments()) && rested == c.Moments()
      decreases 2 - clean + patience + 1 - failed
    {
      ghost var before := c.Moments();
      var outcome := c.Reconcile(env);
      AuspiciousStays(before, c.Moments(), env, outcome);
      if Clean(outcome) {
        CleanRun(before, c.Moments(), env, outcome);
        clean := clean + 1;
        rested := c.Moments();
      } else {
        failed := failed + 1;
      }
    }
    if clean < 2 {
      return;
    }
    assert SameCloud(rested, rested) by { Self(rested); }
    for n := 0 to further
      invariant c.Valid() && Resting(rested, env) && StatusCurrent(rested)
      invariant Resting(c.Moments(), env) && SameCloud(rested, c.Moments())
      invariant ToldApart(rested) ==> c.Moments() == rested
    {
      ghost var before := c.Moments();
      var again := c.Reconcile(env);
      RestLasts(before, c.Moments(), env, again);
      assert SameCloud(rested, c.Moments()) by { Both(rested, before, c.Moments()); }
    }
  }

  lemma Self(a: World)
    ensures SameCloud(a, a)
  {
  }

  lemma Both(a: World, b: World, c: World)
    requires SameCloud(a, b) && SameCloud(b, c)
    ensures SameCloud(a, c)
  {
  }

  /** The safety of the lifecycle machine carries over to courses of runs: every state is mirrored by a reachable state
      of the machine. */
  lemma {:induction false} MirroredThroughout(ws: seq<World>, outcomes: seq<Outcome>, envs: seq<Environment>,
                                              k: NamespacedName, i: nat,
                                              s: Lifecycle.System) returns (t: Lifecycle.System)
    requires Runs(ws, outcomes, envs) && i < |ws| && OfKey(ws[0], k)
    requires LifecycleTheorems.Reachable(Lifecycle.AsWritten, s) && S.Mirrors(s, k, SideOf(ws[0]), Lifecycle.Idle)
    ensures LifecycleTheorems.Reachable(Lifecycle.AsWritten, t) && S.Mirrors(t, k, SideOf(ws[i]), Lifecycle.Idle) &&
      OfKey(ws[i], k)
  {
    hide LifecycleTheorems.Reachable, S.Mirrors, RunStep;
    if i == 0 {
      t := s;
    } else {
      var u := MirroredThroughout(ws, outcomes, envs, k, i - 1, s);
      FollowedOfKey(ws[i - 1], ws[i], envs[i - 1], outcomes[i - 1], k);
      if ws[i - 1].manifest == None {
        t := u;
      } else {
        t := S.StaysReachable(k, SideOf(ws[i - 1]), Lifecycle.Idle, SideOf(ws[i]), Lifecycle.Idle, u);
      }
    }
  }

  /** The object, as long as there is one, is that of the key. */
  ghost predicate OfKey(w: World, k: NamespacedName) {
    w.manifest.Some? ==> w.manifest.value.key == k
  }

  lemma FollowedOfKey(a: World, b: World, env: Environment, outcome: Outcome, k: NamespacedName)
    requires RunStep(a, b, env, outcome) && OfKey(a, k)
    ensures OfKey(b, k) && Followed(a, b)
  {
    hide Leaves, Quiet, Keeps, Isolated, OnlyEnsured, OnlySwept, S.Path;
  }

  /** So the cloud never holds two load balancers created for one object, after any run of any course. */
  lemma OneLoadBalancerThroughout(ws: seq<World>, outcomes: seq<Outcome>, envs: seq<Environment>, k: NamespacedName,
                                  n: nat, s: Lifecycle.System,
                                  i: string, j: string, uid: string)
    requires Runs(ws, outcomes, envs) && n < |ws| && OfKey(ws[0], k)
    requires LifecycleTheorems.Reachable(Lifecycle.AsWritten, s) && S.Mirrors(s, k, SideOf(ws[0]), Lifecycle.Idle)
    requires i in ws[n].lbs.rows && Lifecycle.HasTag(ws[n].lbs.rows[i], Lifecycle.CREATION, uid)
    requires j in ws[n].lbs.rows && Lifecycle.HasTag(ws[n].lbs.rows[j], Lifecycle.CREATION, uid)
    ensures i == j
  {
    hide LifecycleTheorems.Reachable, S.Mirrors, Runs;
    var t := MirroredThroughout(ws, outcomes, envs, k, n, s);
    S.PathSelf(k, SideOf(ws[n]), Lifecycle.Idle);
    S.OnePerObject(k, SideOf(ws[n]), Lifecycle.Idle, SideOf(ws[n]), Lifecycle.Idle, t, i, j, uid);
  }

  // ---------------------------------------------------------------- runs without failed calls

  /** None of the errors a run can meet besides failed calls, as far as the start tells: the load balancer can be
      ensured, no pool has two listeners or monitors, nodes and servers of all pools can be read, and every wanted
      floating IP has a network. */
  ghost predicate Unobstructed(w: World, env: Environment) {
    && Living(w.manifest) && var lb := w.manifest.value;
    && !Unensurable(w.lbs.rows, lb, env) && Singles(w.scene)
    && (forall i :: 0 <= i < |lb.spec.pools| ==> PoolReadable(env, lb.spec.pools[i].backend.nodeSelector))
    && !Homeless(w.attached.Keys, lb.spec.floatingIPs)
  }

  lemma NotObstructed(w: World, next: World, env: Environment)
    requires Unobstructed(w, env)
    ensures !Obstructed(w, next, env)
  {
    hide Unensurable, Homeless, PoolReadable;
    var lb := w.manifest.value;
    forall i, id | Belongs(next.pools.rows, lb.key, lb.spec.uuid, lb.spec.pools, i, id)
      ensures !Blocked(w.scene, env, lb.spec.pools[i], id)
    {
    }
  }

  /** The raw status of the recorded load balancer. */
  ghost predicate Busy(w: World) {
    && Recorded(w.manifest) && w.manifest.value.spec.uuid in w.lbs.rows
    && w.lbs.rows[w.manifest.value.spec.uuid].status == "changing"
  }

  /** How a run without failed calls and without those errors ends, exactly: it asks to be run again if UUID or zone was
      missing, waits if the load balancer is changing, and finishes otherwise. */
  lemma AnsweredRun(w: World, next: World, env: Environment, outcome: Outcome)
    requires RunStep(w, next, env, outcome) && Excused(w, next, env, outcome, false) && Unobstructed(w, env)
    ensures outcome == if !Named(w) then Requeued else if Busy(w) then Changing else Finished
  {
    NotObstructed(w, next, env);
    var lb := w.manifest.value;
    assert lb.spec.uuid != "" ==> lb.spec.uuid in w.lbs.rows;
    hide Unobstructed, Obstructed, Unensurable, Quiet, Keeps, Followed, Isolated, StatusCurrent, Matching, AtRest,
      Tidied, Favourable;
    if outcome == Finished {
      SameRaw(w.lbs.rows, w.lbIds, next.lbs.rows, lb, env);
    }
  }

  /** Load balancers with a creation tag are managed, as they are created. */
  ghost predicate Marked(rows: map<string, Lifecycle.CloudLb>) {
    forall id :: id in rows && Lifecycle.CREATION in rows[id].tags ==>
      Lifecycle.HasTag(rows[id], Lifecycle.MANAGED, "true")
  }

  lemma MarkedKept(before: map<string, Lifecycle.CloudLb>, minted: set<string>, now: map<string, Lifecycle.CloudLb>,
                   lb: LoadBalancer, env: Environment)
    requires OnlyEnsured(before, minted, now, lb, env) && Marked(before)
    ensures Marked(now)
  {
    assert |Lifecycle.MANAGED| != |Lifecycle.CREATION| && |Lifecycle.MANAGED| == |Lifecycle.ADOPTED|;
    assert Lifecycle.MANAGED[|Lifecycle.MANAGED| - 7..] != Lifecycle.ADOPTED[|Lifecycle.ADOPTED| - 7..];
    hide Assigned, ZoneFor, MayAdopt;
  }

  lemma SameNetworkKeys(a: World, b: World, env: Environment, outcome: Outcome)
    requires RunStep(a, b, env, outcome)
    ensures b.attached.Keys == a.attached.Keys
  {
    hide Leaves, Quiet, Keeps, Followed, OnlyEnsured, Progressed, Singles, AlwaysSingles;
  }

  /** A clean run leaves nothing that would obstruct the next one. */
  lemma StaysUnobstructed(w: World, next: World, env: Environment, outcome: Outcome)
    requires RunStep(w, next, env, outcome) && Unobstructed(w, env) && Marked(w.lbs.rows)
    requires outcome == Requeued || outcome == Finished
    ensures Unobstructed(next, env) && Marked(next.lbs.rows)
  {
    SameNetworkKeys(w, next, env, outcome);
    RunKeepsSingles(w, next, env, outcome);
    AlwaysNow(w.scene, next.scene);
    var lb, now := w.manifest.value, next.manifest.value;
    assert OnlyEnsured(w.lbs.rows, w.lbIds, next.lbs.rows, lb, env) && Progressed(lb, now);
    MarkedKept(w.lbs.rows, w.lbIds, next.lbs.rows, lb, env);
    assert Managed(next.lbs.rows, now) && now.spec.uuid != "" by {
      hide Bounded, Quiet, Keeps, Followed, StatusCurrent, Matching, Tidied, Favourable, AtRest, Unobstructed;
    }
    hide RunStep, Singles, AlwaysSingles, Homeless, PoolReadable, OnlyEnsured, NoZone;
  }

  /** Two runs without failed calls. */
  lemma TwoAnswered(a: World, b: World, c: World, env: Environment, first: Outcome, second: Outcome)
    requires RunStep(a, b, env, first) && RunStep(b, c, env, second)
    requires Excused(a, b, env, first, false) && Excused(b, c, env, second, false)
    requires Auspicious(a) && Unobstructed(a, env) && Marked(a.lbs.rows) && !Busy(a) && !Busy(b)
    ensures Clean(first) && second == Finished
  {
    hide RunStep, Auspicious, Unobstructed, Excused, Busy, Named, Marked, Resting, StatusCurrent;
    AnsweredRun(a, b, env, first);
    StaysUnobstructed(a, b, env, first);
    CleanRun(a, b, env, first);
    AnsweredRun(b, c, env, second);
  }

  lemma StepOf(ws: seq<World>, outcomes: seq<Outcome>, envs: seq<Environment>, n: nat)
    requires Runs(ws, outcomes, envs) && n < |outcomes|
    ensures |ws| == |outcomes| + 1 && |envs| == |outcomes| && RunStep(ws[n], ws[n + 1], envs[n], outcomes[n])
  {
    hide RunStep;
  }

  /** The fixpoint without any assumption on outcomes: if no call of two runs fails, nothing obstructs the first one,
      and the load balancer is not changing, then the second run finishes, and from then on no run changes anything. */
  lemma AnsweredRunsRest(ws: seq<World>, outcomes: seq<Outcome>, envs: seq<Environment>, env: Environment, i: nat)
    requires Runs(ws, outcomes, envs) && |outcomes| >= 2 && 2 <= i < |ws|
    requires forall m :: 0 <= m < |envs| ==> envs[m] == env
    requires Excused(ws[0], ws[1], env, outcomes[0], false) && Excused(ws[1], ws[2], env, outcomes[1], false)
    requires Auspicious(ws[0]) && Unobstructed(ws[0], env) && Marked(ws[0].lbs.rows) && !Busy(ws[0]) && !Busy(ws[1])
    ensures outcomes[1] == Finished && Resting(ws[i], env) && SameCloud(ws[2], ws[i])
    ensures ToldApart(ws[2]) ==> ws[i] == ws[2] && StatusCurrent(ws[i])
  {
    hide Runs, RunStep, Resting, StatusCurrent, Auspicious, ToldApart, Unobstructed, Excused, Busy, Marked, SameCloud;
    StepOf(ws, outcomes, envs, 0);
    StepOf(ws, outcomes, envs, 1);
    TwoAnswered(ws[0], ws[1], ws[2], env, outcomes[0], outcomes[1]);
    FixpointReached(ws, outcomes, envs, 0, 1, i);
  }

  /** Any course of events: runs, whatever their outcome and whatever the nodes look like, and changes from outside
      to anything but the children. */
  ghost predicate Course(ws: seq<World>) {
    ws != [] && forall i :: 0 <= i < |ws| - 1 ==> ws[i + 1].scene == ws[i].scene || SomeRun(ws[i], ws[i + 1])
  }

  ghost predicate SomeRun(a: World, b: World) {
    exists env, outcome :: RunStep(a, b, env, outcome)
  }

  /** A run leaves one listener and one monitor per pool after each of its calls. */
  lemma RunKeepsSingles(a: World, b: World, env: Environment, outcome: Outcome)
    requires RunStep(a, b, env, outcome) && Singles(a.scene)
    ensures AlwaysSingles(a.scene, b.scene) && exists ids :: Within(a.scene, b.scene, ids)
  {
    hide Leaves, Quiet, Within, Singles, AlwaysSingles, Progressed;
    if !Recorded(a.manifest) {
      NothingDone(a.scene, env, NamespacedName("", ""), []);
      WithinSelf(a.scene, {});
    }
  }

  /** At most one listener and one health monitor per pool, after every call of every course. */
  lemma {:induction false} OnePerPoolThroughout(ws: seq<World>, i: nat)
    requires Course(ws) && i < |ws| && Singles(ws[0].scene)
    ensures AlwaysSingles(ws[0].scene, ws[i].scene)
  {
    hide RunStep, Within, Singles, AlwaysSingles;
    if i == 0 {
      NothingDone(ws[0].scene, Environment(map[], true, _ => NotFound, _ => true, _ => true), NamespacedName("", ""),
                  []);
    } else {
      OnePerPoolThroughout(ws, i - 1);
      var a, b := ws[i - 1], ws[i];
      AlwaysNow(ws[0].scene, a.scene);
      if b.scene != a.scene {
        assert SomeRun(ws[i - 1], ws[i - 1 + 1]);
        var env, outcome :| RunStep(a, b, env, outcome);
        RunKeepsSingles(a, b, env, outcome);
        var ids :| Within(a.scene, b.scene, ids);
        AlwaysChain(ws[0].scene, a.scene, b.scene, ids);
      }
    }
  }
}
