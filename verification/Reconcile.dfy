/** `Reconcile` as a whole, and when it comes to rest. */
module Reconcile {
  import opened Api
  import opened Orders
  import opened Tables
  import opened Frames
  import opened Nodes
  import opened Children
  import opened Convergence
  import opened FloatingIps
  import opened LoadBalancers
  import Lifecycle
  import S = Simulation
  import L = Listeners
  import M = Monitors
  import B = Members
  import P = Pools

  /** The object as the API server holds it.  Ordinary updates leave the status alone, status updates
      everything else; an object being deleted vanishes with its last finalizer. */
  class ObjectStore {
    var manifest: Option<LoadBalancer>
    ghost var writes: nat
    /** How many calls were refused or not answered. */
    ghost var failures: nat

    constructor(manifest: Option<LoadBalancer>)
      ensures this.manifest == manifest && writes == 0 && failures == 0
    {
      this.manifest := manifest;
      writes, failures := 0, 0;
    }

    method Get() returns (ok: bool, found: Option<LoadBalancer>)
      modifies this`failures
      ensures ok ==> found == manifest
      ensures failures == old(failures) + if ok then 0 else 1
    {
      ok := *;
      failures := failures + if ok then 0 else 1;
      found := manifest;
    }

    method Update(lb: LoadBalancer) returns (ok: bool)
      modifies this
      ensures writes == old(writes) + 1
      ensures manifest == old(manifest) || (old(manifest).Some? && manifest == Stored(old(manifest.value), lb))
      ensures ok ==> old(manifest).Some? && manifest == Stored(old(manifest.value), lb)
      ensures failures == old(failures) + if ok then 0 else 1
    {
      ok := *;
      if ok && manifest.Some? {
        manifest := Stored(manifest.value, lb);
        ok := *;
      } else {
        ok := false;
      }
      failures := failures + if ok then 0 else 1;
      writes := writes + 1;
    }

    method UpdateStatus(status: Status) returns (ok: bool)
      modifies this
      ensures writes == old(writes) + 1
      ensures manifest == old(manifest) || (old(manifest).Some? &&
                                              manifest == Some(old(manifest.value).(status := status)))
      ensures ok ==> old(manifest).Some? && manifest == Some(old(manifest.value).(status := status))
      ensures failures == old(failures) + if ok then 0 else 1
    {
      ok := *;
      if ok && manifest.Some? {
        manifest := Some(manifest.value.(status := status));
        ok := *;
      } else {
        ok := false;
      }
      failures := failures + if ok then 0 else 1;
      writes := writes + 1;
    }
  }

  function Stored(current: LoadBalancer, lb: LoadBalancer): Option<LoadBalancer> {
    if lb.deleting && !lb.finalizer then None else Some(lb.(status := current.status))
  }

  /** Everything a run can change, at some moment. */
  datatype World = World(
    manifest: Option<LoadBalancer>, writes: nat, lbs: Moment<Lifecycle.CloudLb>, lbIds: set<string>,
    pools: Moment<P.CloudPool>, minted: set<string>,
    scene: Scene, attached: map<string, string>, attachCalls: seq<map<string, string>>)

  /** Neither the objects in the cloud nor the log of changing calls differ. */
  ghost predicate SameChildren(a: World, b: World) {
    a.pools == b.pools && a.minted == b.minted && a.scene == b.scene && a.attached == b.attached &&
      a.attachCalls == b.attachCalls
  }

  ghost predicate SameCloud(a: World, b: World) {
    a.lbs == b.lbs && SameChildren(a, b)
  }

  /** `sets.List` of the wanted addresses. */
  ghost predicate ListOf(listed: seq<string>, wanted: seq<string>) {
    Sorted(Compare, listed) && multiset(listed) == multiset(Elements(wanted))
  }

  lemma ListOfUnique(a: seq<string>, b: seq<string>, wanted: seq<string>)
    requires ListOf(a, wanted) && ListOf(b, wanted)
    ensures a == b
  {
    CompareOrdering();
    SortedUnique(Compare, a, b);
  }

  /** The stored status is what a run would compute. */
  ghost predicate StatusCurrent(w: World) {
    && w.manifest.Some? && var lb := w.manifest.value;
    && lb.spec.uuid in w.lbs.rows && var row := w.lbs.rows[lb.spec.uuid];
    && lb.status.cloudscaleStatus == row.status
    && lb.status.virtualIPs == InsertionSort(Compare, row.vips)
    && ListOf(lb.status.floatingIPs, lb.spec.floatingIPs)
    && AllReported(lb.status.pools, w.pools.rows, w.scene.members.rows, lb.key, lb.spec.uuid, lb.spec.pools)
  }

  /** The members are told apart by what the status sorts them by. */
  ghost predicate ToldApart(w: World) {
    w.manifest.Some? ==> AllDistinguished(w.pools.rows, w.scene.members.rows, w.manifest.value.spec.uuid)
  }

  /** The object has passed the lifecycle part and its load balancer is not changing. */
  ghost predicate Ready(w: World) {
    && w.manifest.Some? && var lb := w.manifest.value;
    && lb.finalizer && !lb.deleting && lb.spec.uuid != "" && lb.spec.zone != ""
    && Managed(w.lbs.rows, lb) && w.lbs.rows[lb.spec.uuid].status != "changing"
  }

  /** The state of the cloud in which a run has nothing to do. */
  ghost predicate Resting(w: World, env: Environment) {
    Ready(w) && AtRest(w, env, w.manifest.value)
  }

  /** What has to hold of the cloud for a run for the load balancer `uuid` to come to rest: distinct pool
      names, no two equal pools, no child that differs from a zero wanted value, and floating IPs spelled as the
      cloud spells them. */
  ghost predicate Favourable(w: World, key: NamespacedName, spec: Spec, uuid: string) {
    && Tidy(w.pools.rows, w.minted, w.scene, uuid, spec.pools)
    && Effective(w.pools.rows, w.scene, key, uuid, spec.pools)
    && Addressable(w.attached.Keys, spec.floatingIPs)
  }

  datatype Outcome = Aborted | Gone | Requeued | Changing | Finished

  /** What a run for the load balancer `uuid` may change besides the object and the load balancer: its own
      pools, the children of its own pools, and wanted floating IPs. */
  ghost predicate Isolated(a: World, b: World, uuid: string, wanted: seq<string>) {
    && Framed(a.pools, b.pools, P.OfLb(uuid))
    && (exists ids :: Owns(b.pools.rows, uuid, ids) && Within(a.scene, b.scene, ids))
    && Untouched(a.attached, b.attached, wanted, uuid) &&
      AllUntouched(a.attached, b.attachCalls, |a.attachCalls|, wanted, uuid)
    && (Singles(a.scene) ==> AlwaysSingles(a.scene, b.scene))
    && ByCalls(a.pools, b.pools) && ByScene(a.scene, b.scene)
  }

  lemma SameIsolated(a: World, b: World, uuid: string, wanted: seq<string>)
    requires SameChildren(a, b)
    ensures Isolated(a, b, uuid, wanted)
  {
    assert Owns(b.pools.rows, uuid, {}) && Within(a.scene, b.scene, {});
    NoCallYet(a.attached, a.attachCalls, wanted, uuid);
  }

  /** Only the status of the object may have changed. */
  ghost predicate OnlyStatus(lb: LoadBalancer, now: Option<LoadBalancer>) {
    now.Some? && now.value == lb.(status := now.value.status)
  }

  /** The children are settled and the floating IPs attached. */
  ghost predicate AtRest(w: World, env: Environment, lb: LoadBalancer) {
    && Settled(w.pools.rows, w.scene, env, lb.key, lb.spec.uuid, lb.spec.pools) && Tidied(w, lb)
    && Attached(w.attached, lb.spec.floatingIPs, |lb.spec.floatingIPs|, lb.spec.uuid)
  }

  lemma LogsGrow(a: World, b: World, lb: LoadBalancer, ids: set<string>)
    requires Framed(a.pools, b.pools, P.OfLb(lb.spec.uuid)) && Within(a.scene, b.scene, ids)
    ensures a.pools.log <= b.pools.log && a.scene.listeners.log <= b.scene.listeners.log
    ensures a.scene.monitors.log <= b.scene.monitors.log && a.scene.members.log <= b.scene.members.log
  {
  }

  lemma NowIsolated(a: World, b: World, lb: LoadBalancer, ids: set<string>)
    requires Framed(a.pools, b.pools, P.OfLb(lb.spec.uuid)) && Owns(b.pools.rows, lb.spec.uuid, ids) &&
      Within(a.scene, b.scene, ids)
    requires a.attached == b.attached || Untouched(a.attached, b.attached, lb.spec.floatingIPs, lb.spec.uuid)
    requires a.attachCalls == b.attachCalls ||
      AllUntouched(a.attached, b.attachCalls, |a.attachCalls|, lb.spec.floatingIPs, lb.spec.uuid)
    requires Singles(a.scene) ==> AlwaysSingles(a.scene, b.scene)
    requires ByCalls(a.pools, b.pools) && ByScene(a.scene, b.scene)
    ensures Isolated(a, b, lb.spec.uuid, lb.spec.floatingIPs)
  {
    hide ByCalls, Framed, Owns, Within, Singles, AlwaysSingles;
  }

  ghost predicate Tidied(w: World, lb: LoadBalancer) {
    Tidy(w.pools.rows, w.minted, w.scene, lb.spec.uuid, lb.spec.pools)
  }

  /** The children are as specified and the status reports them. */
  ghost predicate Converged(w: World, env: Environment, lb: LoadBalancer, status: seq<StatusPool>) {
    && Matching(w.pools.rows, w.scene, env, lb.key, lb.spec.uuid, lb.spec.pools)
    && AllReported(status, w.pools.rows, w.scene.members.rows, lb.key, lb.spec.uuid, lb.spec.pools)
  }

  /** Writing the object does not matter to the cloud. */
  lemma OtherObject(before: World, after: World, now: World, env: Environment, lb: LoadBalancer)
    requires now == after.(manifest := now.manifest, writes := now.writes)
    ensures Isolated(before, after, lb.spec.uuid, lb.spec.floatingIPs) ==>
      Isolated(before, now, lb.spec.uuid, lb.spec.floatingIPs)
    ensures AtRest(after, env, lb) ==> AtRest(now, env, lb)
    ensures Tidied(after, lb) ==> Tidied(now, lb)
    ensures Favourable(after, lb.key, lb.spec, lb.spec.uuid) ==> Favourable(now, lb.key, lb.spec, lb.spec.uuid)
  {
    hide Framed, Owns, Within, Singles, AlwaysSingles, ByCalls, Untouched, AllUntouched, Settled, Tidy, Attached,
      Convergence.Effective, Addressable;
  }

  lemma UntouchedKeys(before: map<string, string>, now: map<string, string>, wanted: seq<string>, uuid: string)
    requires Untouched(before, now, wanted, uuid)
    ensures now.Keys == before.Keys
  {
  }

  lemma RestTidied(w: World, env: Environment, lb: LoadBalancer)
    requires AtRest(w, env, lb)
    ensures Tidied(w, lb) && P.Unique(w.pools.rows, lb.spec.uuid)
  {
    hide Settled, Attached;
  }

  lemma NowCurrent(w: World, lb: LoadBalancer, row: Lifecycle.CloudLb, status: seq<StatusPool>, vips: seq<string>,
                   have: seq<string>)
    requires w.manifest == Some(lb.(status := lb.status.(pools := status, virtualIPs := vips, floatingIPs := have)))
    requires lb.spec.uuid in w.lbs.rows && w.lbs.rows[lb.spec.uuid] == row && lb.status.cloudscaleStatus == row.status
    requires vips == InsertionSort(Compare, row.vips) && ListOf(have, lb.spec.floatingIPs)
    requires AllReported(status, w.pools.rows, w.scene.members.rows, lb.key, lb.spec.uuid, lb.spec.pools)
    ensures StatusCurrent(w)
  {
    hide AllReported, ListOf, InsertionSort;
  }

  lemma SameStatus(w: World, lb: LoadBalancer, row: Lifecycle.CloudLb, status: seq<StatusPool>, vips: seq<string>,
                   have: seq<string>)
    requires w.manifest == Some(lb) && StatusCurrent(w) && ToldApart(w)
    requires lb.spec.uuid in w.lbs.rows && w.lbs.rows[lb.spec.uuid] == row
    requires vips == InsertionSort(Compare, row.vips) && ListOf(have, lb.spec.floatingIPs)
    requires AllReported(status, w.pools.rows, w.scene.members.rows, lb.key, lb.spec.uuid, lb.spec.pools) &&
      P.Unique(w.pools.rows, lb.spec.uuid)
    ensures lb.status.(pools := status, virtualIPs := vips, floatingIPs := have) == lb.status
  {
    hide AllReported, ListOf, InsertionSort, AllDistinguished, P.Unique;
    ListOfUnique(lb.status.floatingIPs, have, lb.spec.floatingIPs);
    StatusUnique(lb.status.pools, status, w.pools.rows, w.scene.members.rows, lb.key, lb.spec.uuid, lb.spec.pools);
  }

  /** Every load balancer is in a zone. */
  ghost predicate Zoned(rows: map<string, Lifecycle.CloudLb>) {
    forall id :: id in rows ==> rows[id].zone != ""
  }

  /** The object as a run may leave it: the finalizer is only added, the UUID and the zone are only filled in,
      and nothing else of the specification changes. */
  ghost predicate Progressed(lb: LoadBalancer, now: LoadBalancer) {
    && now.key == lb.key && now.uid == lb.uid && now.deleting == lb.deleting && (lb.finalizer ==> now.finalizer)
    && now.spec == lb.spec.(uuid := now.spec.uuid, zone := now.spec.zone)
    && (lb.spec.uuid != "" ==> now.spec.uuid == lb.spec.uuid && (lb.spec.zone != "" ==> now.spec.zone == lb.spec.zone))
  }

  lemma SameManaged(rows: map<string, Lifecycle.CloudLb>, a: LoadBalancer, b: LoadBalancer)
    requires a.spec == b.spec
    ensures Managed(rows, a) <==> Managed(rows, b)
  {
  }

  ghost predicate Living(manifest: Option<LoadBalancer>) {
    manifest.Some? && !manifest.value.deleting
  }

  /** The object is not being deleted and names its load balancer. */
  ghost predicate Recorded(manifest: Option<LoadBalancer>) {
    Living(manifest) && manifest.value.spec.uuid != ""
  }

  ghost predicate FavourableNow(w: World) {
    w.manifest.Some? && Favourable(w, w.manifest.value.key, w.manifest.value.spec, w.manifest.value.spec.uuid)
  }

  /** Nothing happened yet. */
  lemma NothingChanged(w: World, env: Environment)
    ensures Followed(w, w)
    ensures w.manifest.Some? ==> Progressed(w.manifest.value, w.manifest.value)
    ensures w.manifest.Some? ==>
      OnlyEnsured(w.lbs.rows, w.lbIds, w.lbs.rows, w.manifest.value, env) &&
        OnlySwept(w.lbs.rows, w.lbs.rows, w.manifest.value)
    ensures w.manifest.Some? ==> Isolated(w, w, w.manifest.value.spec.uuid, w.manifest.value.spec.floatingIPs)
  {
    if w.manifest.Some? {
      S.PathSelf(w.manifest.value.key, SideOf(w), Lifecycle.Idle);
      SameIsolated(w, w, w.manifest.value.spec.uuid, w.manifest.value.spec.floatingIPs);
    }
  }

  /** What every run respects.  Without a recorded load balancer the child phase is not reached; with one, it
      stays within its bounds.  Of the load balancers only the object's own is created or adopted, and created only
      under the finalizer; only the recorded one and those the filter selects are deleted, and the finalizer is taken
      off only after the recorded one is gone. */
  ghost predicate Bounded(before: World, now: World, env: Environment) {
    && (if Recorded(before.manifest)
        then Isolated(before, now, before.manifest.value.spec.uuid, before.manifest.value.spec.floatingIPs)
        else SameChildren(before, now))
    && (Living(before.manifest) ==>
          && Living(now.manifest) && Progressed(before.manifest.value, now.manifest.value)
          && OnlyEnsured(before.lbs.rows, before.lbIds, now.lbs.rows, before.manifest.value, env)
          && (now.lbs.rows.Keys != before.lbs.rows.Keys ==> now.manifest.value.finalizer))
    && (before.manifest.Some? && before.manifest.value.deleting ==>
          && OnlySwept(before.lbs.rows, now.lbs.rows, before.manifest.value)
          && (now.manifest == before.manifest ||
                (now.manifest == None && before.manifest.value.spec.uuid !in now.lbs.rows)))
    && (before.manifest == None ==> now.lbs == before.lbs)
  }

  /** Where a run ends.  One that asks to be run again has filled in UUID and zone and changed no child; one
      that finishes leaves the children and the status as specified, and everything at rest if the start was
      favourable. */
  ghost predicate Leaves(before: World, now: World, env: Environment, outcome: Outcome) {
    && (Living(before.manifest) ==> outcome != Gone)
    && (outcome == Requeued ==>
          && Living(before.manifest) && (before.manifest.value.spec.uuid == "" || before.manifest.value.spec.zone == "")
          && SameChildren(before, now)
          && Living(now.manifest) && now.manifest.value.spec.uuid != "" && now.manifest.value.spec.uuid in now.lbs.rows
          && (before.manifest.value.spec.uuid == "" ==>
                Mine(now.lbs.rows[now.manifest.value.spec.uuid], before.manifest.value))
          && (before.manifest.value.spec.uuid != "" ==> Managed(now.lbs.rows, now.manifest.value))
          && (Zoned(now.lbs.rows) ==> now.manifest.value.spec.zone != ""))
    && (outcome == Changing ==>
          && Recorded(before.manifest) && before.manifest.value.spec.zone != "" && SameChildren(before, now)
          && before.manifest.value.spec.uuid in before.lbs.rows
          && before.lbs.rows[before.manifest.value.spec.uuid].status == "changing"
          && now.manifest.Some? && now.manifest.value.status.cloudscaleStatus == "changing")
    && (outcome == Gone ==>
          before.manifest.Some? ==>
            before.manifest.value.deleting && (before.manifest.value.finalizer ==> now.manifest == None))
    && (outcome == Finished ==> Recorded(before.manifest) && before.manifest.value.spec.zone != "" && Ready(now))
    && (outcome == Finished && Tidied(before, before.manifest.value) ==>
          && Matching(now.pools.rows, now.scene, env, now.manifest.value.key, now.manifest.value.spec.uuid,
                      now.manifest.value.spec.pools)
          && StatusCurrent(now))
    && (outcome == Finished && FavourableNow(before) ==> Resting(now, env) && StatusCurrent(now))
  }

  /** At rest, a run changes nothing in the cloud; if moreover the status is current and the members are told
      apart, it changes nothing at all. */
  ghost predicate Quiet(before: World, now: World, env: Environment) {
    && (Resting(before, env) ==> SameCloud(before, now) && OnlyStatus(before.manifest.value, now.manifest))
    && (Resting(before, env) && StatusCurrent(before) && ToldApart(before) ==> now == before)
  }

  /** Whatever its outcome, a run keeps what is needed to come to rest. */
  ghost predicate Keeps(before: World, now: World) {
    Recorded(before.manifest) && FavourableNow(before) ==> FavourableNow(now)
  }

  /** The calls of a run are steps of the lifecycle machine: from any state that mirrors the stores before it, the
      machine gets to one that mirrors them after it. */
  ghost predicate Followed(before: World, now: World) {
    if before.manifest.Some?
    then S.Path(before.manifest.value.key, SideOf(before), Lifecycle.Idle, SideOf(now), Lifecycle.Idle)
    else SideOf(now) == SideOf(before)
  }

  /** One run, whatever happens during it. */
  ghost predicate RunStep(before: World, now: World, env: Environment, outcome: Outcome) {
    && (Zoned(before.lbs.rows) ==> Zoned(now.lbs.rows))
    && Bounded(before, now, env) && Leaves(before, now, env, outcome) && Quiet(before, now, env)
    && Keeps(before, now) && Followed(before, now)
  }

  lemma ChildrenAlone(a: World, b: World)
    requires a.pools == b.pools && a.minted == b.minted && a.scene == b.scene && a.attached == b.attached &&
      a.attachCalls == b.attachCalls
    ensures SameChildren(a, b)
  {
  }

  lemma ReadyHas(w: World)
    requires Ready(w)
    ensures w.manifest.Some? && w.manifest.value.spec.uuid in w.lbs.rows
  {
  }

  lemma SameFavourable(a: World, b: World, given: LoadBalancer, now: LoadBalancer, uuid: string)
    requires SameChildren(a, b) && Progressed(given, now)
    ensures Favourable(a, given.key, given.spec, uuid) <==> Favourable(b, now.key, now.spec, uuid)
  {
    hide Tidy, Convergence.Effective, Addressable;
  }

  /** After reading the object, the calls up to `mid`, and status writes alone since then. */
  lemma FollowedSoFar(before: World, mid: World, now: World, given: LoadBalancer, p: Lifecycle.Pc)
    requires before.manifest == Some(given) && S.Path(given.key, SideOf(before), JustRead(given), SideOf(mid), p)
    requires mid.manifest.Some? && (now.manifest == mid.manifest || OnlyStatus(mid.manifest.value, now.manifest)) &&
      now.lbs == mid.lbs && now.lbIds == mid.lbIds
    ensures Followed(before, now)
  {
    hide S.Path;
    S.Reads(given.key, SideOf(before));
    S.PathChain(given.key, SideOf(before), Lifecycle.Idle, SideOf(before), JustRead(given), SideOf(mid), p);
    StatusPath(given.key, mid.manifest.value, SideOf(mid), SideOf(now), p);
    S.PathChain(given.key, SideOf(before), Lifecycle.Idle, SideOf(mid), p, SideOf(now), Lifecycle.Idle);
  }

  lemma ReadPath(lb: LoadBalancer, a: S.Side, b: S.Side)
    requires a.manifest == Some(lb) && S.Path(lb.key, a, JustRead(lb), b, Lifecycle.Idle)
    ensures S.Path(lb.key, a, Lifecycle.Idle, b, Lifecycle.Idle)
  {
    hide S.Path;
    S.Reads(lb.key, a);
    S.PathChain(lb.key, a, Lifecycle.Idle, a, JustRead(lb), b, Lifecycle.Idle);
  }

  lemma StoppedKeeps(before: World, mid: World, given: LoadBalancer)
    requires before.manifest == Some(given) && SameChildren(before, mid) && mid.manifest.Some? &&
      Progressed(given, mid.manifest.value)
    ensures Keeps(before, mid)
  {
    SameFavourable(before, mid, given, mid.manifest.value, given.spec.uuid);
    hide Favourable;
  }

  lemma WentKeeps(before: World, mid: World, now: World, env: Environment, given: LoadBalancer, lb: LoadBalancer,
                  row: Lifecycle.CloudLb, ok: bool)
    requires Went(before, mid, now, env, given, lb, row, ok)
    ensures Keeps(before, now)
  {
    hide Isolated, ToldApart, Matching, StatusCurrent, AtRest, Tidied, Managed, OnlyEnsured, Tidy,
      Convergence.Effective, Addressable;
  }

  lemma Stopped(before: World, mid: World, env: Environment, given: LoadBalancer, outcome: Outcome)
    requires before.manifest == Some(given) && !given.deleting && SameChildren(before, mid)
    requires mid.manifest.Some? && Progressed(given, mid.manifest.value) && outcome in {Aborted, Requeued, Changing}
    requires mid.lbs.rows.Keys != before.lbs.rows.Keys ==> mid.manifest.value.finalizer
    requires outcome == Requeued ==>
      && (given.spec.uuid == "" || given.spec.zone == "")
      && mid.manifest.value.spec.uuid in mid.lbs.rows && mid.manifest.value.spec.uuid != ""
      && mid.manifest.value.spec.zone == mid.lbs.rows[mid.manifest.value.spec.uuid].zone
      && (given.spec.uuid == "" ==> Mine(mid.lbs.rows[mid.manifest.value.spec.uuid], given))
      && (given.spec.uuid != "" ==> Managed(mid.lbs.rows, mid.manifest.value))
    requires outcome == Changing ==>
      && given.spec.uuid != "" && given.spec.zone != "" && given.spec.uuid in before.lbs.rows
      && before.lbs.rows[given.spec.uuid].status == "changing"
      && mid.manifest.value.status.cloudscaleStatus == "changing"
    requires OnlyEnsured(before.lbs.rows, before.lbIds, mid.lbs.rows, given, env)
    requires Ready(before) ==> mid.lbs == before.lbs && outcome == Aborted && OnlyStatus(given, mid.manifest)
    requires Ready(before) && given.status.cloudscaleStatus == mid.lbs.rows[given.spec.uuid].status ==> mid == before
    ensures Bounded(before, mid, env) && Leaves(before, mid, env, outcome) && Quiet(before, mid, env)
  {
    SameIsolated(before, mid, given.spec.uuid, given.spec.floatingIPs);
    hide Isolated, AtRest, ToldApart, Favourable, Tidied, Matching, AllReported, InsertionSort, ListOf, OnlyEnsured,
      Mine;
  }

  /** What is known after preparing the object (`mid`) and converging (`now`). */
  ghost predicate Went(before: World, mid: World, now: World, env: Environment, given: LoadBalancer, lb: LoadBalancer,
                       row: Lifecycle.CloudLb, ok: bool) {
    && before.manifest == Some(given) && !given.deleting && SameChildren(before, mid)
    && mid.manifest == Some(lb) && Progressed(given, lb) && Ready(mid) && lb.spec == given.spec && lb.key == given.key
    && row == mid.lbs.rows[lb.spec.uuid] && lb.status == given.status.(cloudscaleStatus := row.status)
    && (Ready(before) ==> mid.lbs == before.lbs && OnlyStatus(given, mid.manifest))
    && (Ready(before) && given.status.cloudscaleStatus == mid.lbs.rows[given.spec.uuid].status ==> mid == before)
    && (FavourableNow(before) <==> Favourable(mid, lb.key, lb.spec, lb.spec.uuid))
    && (Tidied(before, given) <==> Tidied(mid, lb))
    && (AtRest(before, env, given) <==> AtRest(mid, env, lb))
    && OnlyEnsured(before.lbs.rows, before.lbIds, mid.lbs.rows, given, env)
    && now.lbs == mid.lbs && OnlyStatus(lb, now.manifest) && Isolated(mid, now, lb.spec.uuid, lb.spec.floatingIPs)
    && (Favourable(mid, lb.key, lb.spec, lb.spec.uuid) ==> Favourable(now, lb.key, lb.spec, lb.spec.uuid))
    && (ok && Favourable(mid, lb.key, lb.spec, lb.spec.uuid) ==> AtRest(now, env, lb))
    && (ok && Tidied(mid, lb) ==>
          Matching(now.pools.rows, now.scene, env, lb.key, lb.spec.uuid, lb.spec.pools) && StatusCurrent(now))
    && (AtRest(mid, env, lb) ==> SameCloud(mid, now))
    && (AtRest(mid, env, lb) && StatusCurrent(mid) && ToldApart(mid) ==> now == mid)
  }

  lemma WentBounded(before: World, mid: World, now: World, env: Environment, given: LoadBalancer, lb: LoadBalancer,
                    row: Lifecycle.CloudLb, ok: bool)
    requires Went(before, mid, now, env, given, lb, row, ok)
    ensures Bounded(before, now, env)
  {
    hide Isolated, ToldApart, Matching, StatusCurrent, AtRest, Tidied, Favourable, Managed, OnlyEnsured;
    IsolatedSince(before, mid, now, lb.spec.uuid, lb.spec.floatingIPs);
  }

  lemma WentLeaves(before: World, mid: World, now: World, env: Environment, given: LoadBalancer, lb: LoadBalancer,
                   row: Lifecycle.CloudLb, ok: bool)
    requires Went(before, mid, now, env, given, lb, row, ok)
    ensures Leaves(before, now, env, if ok then Finished else Aborted)
  {
    hide Isolated, ToldApart, Matching, StatusCurrent, SameCloud, SameChildren, OnlyEnsured;
    if ok && FavourableNow(before) {
      assert Tidied(mid, lb) && AtRest(now, env, lb);
      SameRest(now, env, lb, now.manifest.value);
    }
    hide AtRest, Tidied, Favourable;
  }

  lemma SameRest(w: World, env: Environment, a: LoadBalancer, b: LoadBalancer)
    requires AtRest(w, env, a) && a.key == b.key && a.spec == b.spec
    ensures AtRest(w, env, b)
  {
  }

  lemma WentQuiet(before: World, mid: World, now: World, env: Environment, given: LoadBalancer, lb: LoadBalancer,
                  row: Lifecycle.CloudLb, ok: bool)
    requires Went(before, mid, now, env, given, lb, row, ok)
    ensures Quiet(before, now, env)
  {
    hide Isolated, ToldApart, Matching, AtRest, Tidied, Favourable, Managed, AllReported, ListOf, InsertionSort,
      OnlyEnsured;
  }

  lemma IsolatedSince(before: World, mid: World, now: World, uuid: string, wanted: seq<string>)
    requires SameChildren(before, mid) && Isolated(mid, now, uuid, wanted)
    ensures Isolated(before, now, uuid, wanted)
  {
    hide Framed, Owns, Within, Singles, AlwaysSingles, ByCalls, Untouched, AllUntouched;
  }

  /** Errors of the child phase that are no failed calls. */
  ghost predicate Hindered(before: World, now: World, env: Environment, lb: LoadBalancer) {
    || PoolBlocked(now.pools.rows, before.scene, env, lb.key, lb.spec.uuid, lb.spec.pools)
    || Homeless(before.attached.Keys, lb.spec.floatingIPs)
  }

  /** The errors of a run for an object that is not being deleted, other than failed calls. */
  ghost predicate Obstructed(before: World, now: World, env: Environment) {
    && Living(before.manifest)
    && (Unensurable(before.lbs.rows, before.manifest.value, env) || Hindered(before, now, env, before.manifest.value))
  }

  /** A run aborts only if a call failed, or for one of the errors above. */
  ghost predicate Excused(before: World, now: World, env: Environment, outcome: Outcome, failed: bool) {
    outcome == Aborted ==> failed || Obstructed(before, now, env)
  }

  lemma SameHindered(before: World, mid: World, now: World, env: Environment, given: LoadBalancer, lb: LoadBalancer)
    requires SameChildren(before, mid) && lb.spec == given.spec && lb.key == given.key
    ensures Hindered(before, now, env, given) <==> Hindered(mid, now, env, lb)
  {
    hide PoolBlocked, Homeless;
  }

  /** Preparing the object does not matter to the children. */
  lemma StillFavourable(before: World, mid: World, env: Environment, given: LoadBalancer, lb: LoadBalancer)
    requires before.manifest == Some(given) && SameChildren(before, mid) && lb.key == given.key && lb.spec == given.spec
    ensures FavourableNow(before) <==> Favourable(mid, lb.key, lb.spec, lb.spec.uuid)
    ensures Tidied(before, given) <==> Tidied(mid, lb)
    ensures AtRest(before, env, given) <==> AtRest(mid, env, lb)
    ensures Isolated(before, mid, lb.spec.uuid, lb.spec.floatingIPs)
  {
    SameIsolated(before, mid, lb.spec.uuid, lb.spec.floatingIPs);
    hide Isolated, Tidy, Convergence.Effective, Addressable, Settled, Attached;
  }

  lemma SameEnsured(before: map<string, Lifecycle.CloudLb>, minted: set<string>, now: map<string, Lifecycle.CloudLb>,
                    a: LoadBalancer, b: LoadBalancer, env: Environment)
    requires OnlyEnsured(before, minted, now, a, env) && a.spec == b.spec && a.uid == b.uid && a.key == b.key
    ensures OnlyEnsured(before, minted, now, b, env)
  {
    if id :| CreatedAs(before, minted, now, a, env, id) {
      assert CreatedAs(before, minted, now, b, env, id);
    }
  }

  /** The stores as the lifecycle machine sees them. */
  ghost function SideOf(w: World): S.Side {
    S.Side(w.manifest, w.lbs.rows, w.lbIds)
  }

  /** Where the machine's worker stands when it has read the object. */
  ghost function JustRead(lb: LoadBalancer): Lifecycle.Pc {
    Lifecycle.AfterRead(0, Lifecycle.Present(S.ManifestOf(lb)))
  }

  /** Where it stands when the load balancer is ensured, or could not be. */
  ghost function WhenEnsured(ok: bool, lb: LoadBalancer, id: string, row: Lifecycle.CloudLb): Lifecycle.Pc {
    if ok then Lifecycle.Ensured(0, S.ManifestOf(lb), id, row) else Lifecycle.Idle
  }

  lemma FinalizerPath(lb: LoadBalancer, a: S.Side, b: S.Side, c: S.Side)
    requires lb.deleting && lb.finalizer && b.manifest == Some(lb) && (c == b || c == b.(manifest := None))
    requires S.Path(lb.key, a, JustRead(lb), b, Lifecycle.RemovingFinalizer(0, S.ManifestOf(lb)))
    ensures S.Path(lb.key, a, JustRead(lb), c, Lifecycle.Idle)
  {
    hide S.Path;
    var p := Lifecycle.RemovingFinalizer(0, S.ManifestOf(lb));
    if c == b {
      S.Fails(lb.key, b, p);
    } else {
      S.RemovesFinalizer(lb.key, b, lb);
    }
    S.PathChain(lb.key, a, JustRead(lb), b, p, c, Lifecycle.Idle);
  }

  lemma AddingPath(given: LoadBalancer, lb: LoadBalancer, a: S.Side, b: S.Side, ok: bool)
    requires !given.deleting && !given.finalizer && lb == given.(finalizer := true) && a.manifest == Some(given)
    requires (b == a || b == a.(manifest := Some(lb))) && (ok ==> b == a.(manifest := Some(lb)))
    ensures S.Path(lb.key, a, JustRead(given), b, if ok then Lifecycle.Ensuring(0,
        S.ManifestOf(lb)) else Lifecycle.Idle)
  {
    hide S.Path;
    if b == a {
      S.Fails(lb.key, a, JustRead(given));
    } else {
      S.AddsFinalizer(lb.key, a, b, ok);
    }
  }

  lemma NotEnsured(lb: LoadBalancer, id: string, row: Lifecycle.CloudLb)
    ensures WhenEnsured(false, lb, id, row) == Lifecycle.Idle
  {
  }

  lemma SameMine(row: Lifecycle.CloudLb, a: LoadBalancer, b: LoadBalancer)
    requires a.uid == b.uid && a.key == b.key
    ensures Mine(row, a) <==> Mine(row, b)
  {
  }

  /** A write of the manifest that ends the run. */
  lemma RecordPath(lb: LoadBalancer, id: string, row: Lifecycle.CloudLb, spec: Spec, a: S.Side, b: S.Side)
    requires a.manifest == Some(lb) && (b == a || b == a.(manifest := Some(lb.(spec := spec))))
    requires lb.spec.uuid == "" || lb.spec.zone == ""
    requires spec == if lb.spec.uuid == "" then lb.spec.(uuid := id, zone := row.zone) else lb.spec.(zone := row.zone)
    ensures S.Path(lb.key, a, WhenEnsured(true, lb, id, row), b, Lifecycle.Idle)
  {
    hide S.Path;
    if b == a {
      S.Fails(lb.key, a, WhenEnsured(true, lb, id, row));
    } else if lb.spec.uuid == "" {
      S.Records(lb.key, a, b, S.ManifestOf(lb), id, row.zone);
    } else {
      S.RecordsZone(lb.key, a, b, S.ManifestOf(lb), row.zone);
    }
  }

  /** Status writes do not concern the machine. */
  lemma StatusPath(k: NamespacedName, lb: LoadBalancer, a: S.Side, b: S.Side, p: Lifecycle.Pc)
    requires a.manifest == Some(lb) && OnlyStatus(lb, b.manifest) && b.lbs == a.lbs && a.minted <= b.minted
    ensures S.Path(k, a, p, b, p) && S.Path(k, a, p, b, Lifecycle.Idle)
  {
    hide S.Path;
    S.SameSide(k, a, b, p);
    S.Fails(k, b, p);
    S.PathChain(k, a, p, b, p, b, Lifecycle.Idle);
  }

  /** Ensuring the recorded load balancer leaves its raw status alone. */
  lemma SameRaw(before: map<string, Lifecycle.CloudLb>, minted: set<string>, now: map<string, Lifecycle.CloudLb>,
                lb: LoadBalancer, env: Environment)
    requires OnlyEnsured(before, minted, now, lb, env) && lb.spec.uuid != "" && lb.spec.uuid in now
    ensures lb.spec.uuid in before && before[lb.spec.uuid].status == now[lb.spec.uuid].status
  {
  }

  lemma SameUnensurable(rows: map<string, Lifecycle.CloudLb>, a: LoadBalancer, b: LoadBalancer, env: Environment)
    requires a.spec == b.spec && a.uid == b.uid && a.key == b.key
    ensures Unensurable(rows, a, env) <==> Unensurable(rows, b, env)
  {
    assert forall zone :: ZoneFor(env, a, zone) <==> ZoneFor(env, b, zone);
  }

  class Controller {
    const store: ObjectStore
    const lbs: Table<Lifecycle.CloudLb>
    const pools: Table<P.CloudPool>
    const listeners: Table<L.Listener>
    const monitors: Table<M.Monitor>
    const members: Table<B.Member>
    const fips: FloatingIPService

    constructor(store: ObjectStore, lbs: Table<Lifecycle.CloudLb>, pools: Table<P.CloudPool>,
                listeners: Table<L.Listener>,
                monitors: Table<M.Monitor>, members: Table<B.Member>, fips: FloatingIPService)
      ensures this.store == store && this.lbs == lbs && this.pools == pools && this.listeners == listeners
      ensures this.monitors == monitors && this.members == members && this.fips == fips
    {
      this.store, this.lbs, this.pools, this.listeners := store, lbs, pools, listeners;
      this.monitors, this.members, this.fips := monitors, members, fips;
    }

    ghost predicate Valid()
      reads lbs, pools, listeners, monitors, members
    {
      lbs.Valid() && pools.Valid() && listeners.Valid() && monitors.Valid() && members.Valid()
    }

    ghost function Moments(): World
      reads store, lbs, pools, listeners, monitors, members, fips
    {
      World(store.manifest, store.writes, Now(lbs), lbs.minted, Now(pools), pools.minted,
            View(listeners, monitors, members), fips.attached, fips.log)
    }

    /** How many calls of the child phase failed. */
    ghost function CloudFailures(): nat
      reads pools, listeners, monitors, members, fips
    {
      pools.failures + Failures(listeners, monitors, members) + fips.failures
    }

    /** How many calls failed. */
    ghost function AllFailures(): nat
      reads store, lbs, pools, listeners, monitors, members, fips
    {
      store.failures + lbs.failures + CloudFailures()
    }

    /** Lines 196-239: the status is written only if it differs. */
    method WriteStatus(lb: LoadBalancer, pools: seq<StatusPool>, vips: seq<string>, have: seq<string>)
      returns (ok: bool)
      requires store.manifest == Some(lb)
      modifies store
      ensures var status := lb.status.(pools := pools, virtualIPs := vips, floatingIPs := have);
        && (store.manifest == Some(lb) || store.manifest == Some(lb.(status := status)))
        && (ok ==> store.manifest == Some(lb.(status := status)))
        && (store.writes == old(store.writes) <==> status == lb.status)
      ensures store.failures == old(store.failures) + if ok then 0 else 1
    {
      var status := lb.status;
      var needsUpdate := false;
      if status.pools != pools {
        needsUpdate := true;
        status := status.(pools := pools);
      }
      if status.virtualIPs != vips {
        needsUpdate := true;
        status := status.(virtualIPs := vips);
      }
      if status.floatingIPs != have {
        needsUpdate := true;
        status := status.(floatingIPs := have);
      }
      ok := true;
      if needsUpdate {
        ok := store.UpdateStatus(status);
      }
    }

    /** The calls of lines 143-222 that change the cloud: the children, then the floating IPs. */
    method ConvergeCloud(lb: LoadBalancer, env: Environment)
      returns (ok: bool, status: seq<StatusPool>, have: seq<string>)
      requires Valid() && WellNamed(env.nodes)
      modifies pools, listeners, monitors, members, fips
      ensures Valid() && Isolated(old(Moments()), Moments(), lb.spec.uuid, lb.spec.floatingIPs)
      ensures Favourable(old(Moments()), lb.key, lb.spec, lb.spec.uuid) ==>
        Favourable(Moments(), lb.key, lb.spec, lb.spec.uuid)
      ensures ok && Favourable(old(Moments()), lb.key, lb.spec, lb.spec.uuid) ==> AtRest(Moments(), env, lb)
      ensures Tidied(old(Moments()), lb) ==> Tidied(Moments(), lb)
      ensures ok && Tidied(old(Moments()), lb) ==> Converged(Moments(), env, lb, status)
      ensures ok ==> ListOf(have, lb.spec.floatingIPs)
      ensures AtRest(old(Moments()), env, lb) ==> Moments() == old(Moments())
      ensures CloudFailures() >= old(CloudFailures())
      ensures !ok ==> CloudFailures() > old(CloudFailures()) || Hindered(old(Moments()), Moments(), env, lb)
    {
      hide Traced, Framed, Within, Owns, Singles, AlwaysSingles, Matching, AllReported, Convergence.Effective,
        Settled, Tidy, WellNamed, Untouched, AllUntouched, Addressable,
        Attached, Isolated, Sorted, ByCalls, PoolBlocked, Homeless;
      ghost var before := Moments();
      ghost var ids;
      have := [];
      ok, status, ids := EnsureChildren(pools, listeners, monitors, members, env, lb.key, lb.spec.uuid, lb.spec.pools);
      LogsGrow(before, Moments(), lb, ids);
      TracedByCalls(pools.start, before.pools, Now(pools));
      TracedByCalls(listeners.start, before.scene.listeners, Now(listeners));
      TracedByCalls(monitors.start, before.scene.monitors, Now(monitors));
      TracedByCalls(members.start, before.scene.members, Now(members));
      NowIsolated(before, Moments(), lb, ids);
      if !ok {
        return;
      }
      ok, have := AttachFloatingIPs(fips, lb.spec.uuid, lb.spec.floatingIPs);
      UntouchedKeys(before.attached, fips.attached, lb.spec.floatingIPs, lb.spec.uuid);
      NowIsolated(before, Moments(), lb, ids);
    }

    /** Lines 143-239: the child phase and the status of a load balancer that is not changing. */
    method Converge(lb: LoadBalancer, row: Lifecycle.CloudLb, env: Environment) returns (ok: bool)
      requires Valid() && WellNamed(env.nodes)
      requires store.manifest == Some(lb) && lb.spec.uuid in lbs.rows && lbs.rows[lb.spec.uuid] == row &&
        lb.status.cloudscaleStatus == row.status
      modifies store, pools, listeners, monitors, members, fips
      ensures Valid() && OnlyStatus(lb, store.manifest)
      ensures Isolated(old(Moments()), Moments(), lb.spec.uuid, lb.spec.floatingIPs)
      ensures Favourable(old(Moments()), lb.key, lb.spec, lb.spec.uuid) ==>
        Favourable(Moments(), lb.key, lb.spec, lb.spec.uuid)
      ensures Tidied(old(Moments()), lb) ==> Tidied(Moments(), lb)
      ensures ok && Favourable(old(Moments()), lb.key, lb.spec, lb.spec.uuid) ==> AtRest(Moments(), env, lb)
      ensures ok && Tidied(old(Moments()), lb) ==>
        && Matching(pools.rows, View(listeners, monitors, members), env, lb.key, lb.spec.uuid, lb.spec.pools)
        && StatusCurrent(Moments())
      ensures AtRest(old(Moments()), env, lb) ==> SameCloud(old(Moments()), Moments())
      ensures AtRest(old(Moments()), env, lb) && StatusCurrent(old(Moments())) && ToldApart(old(Moments())) ==>
        Moments() == old(Moments())
      ensures CloudFailures() >= old(CloudFailures()) && store.failures >= old(store.failures)
      ensures !ok ==>
        || CloudFailures() > old(CloudFailures()) || store.failures > old(store.failures)
        || Hindered(old(Moments()), Moments(), env, lb)
    {
      hide Traced, Hindered, AtRest, Tidied, Favourable, Isolated, ListOf, StatusCurrent, ToldApart, InsertionSort,
        WellNamed,
        Matching, AllReported;
      ghost var before := Moments();
      var status, have;
      ok, status, have := ConvergeCloud(lb, env);
      if !ok {
        return;
      }
      ghost var after := Moments();
      var vips := InsertionSort(Compare, row.vips);
      ok := WriteStatus(lb, status, vips, have);
      ghost var now := Moments();
      OtherObject(before, after, now, env, lb);
      if ok && Tidied(before, lb) {
        NowCurrent(now, lb, row, status, vips, have);
      }
      if AtRest(before, env, lb) && StatusCurrent(before) && ToldApart(before) {
        assert Tidied(before, lb) && P.Unique(before.pools.rows, lb.spec.uuid) by { RestTidied(before, env, lb); }
        SameStatus(before, lb, row, status, vips, have);
      }
    }

    /** Lines 89-102: cleanup, and only then the finalizer is taken off. */
    method Finalize(lb: LoadBalancer) returns (outcome: Outcome)
      requires Valid() && store.manifest == Some(lb) && lb.deleting
      modifies store, lbs
      ensures Valid() && outcome in {Aborted, Gone}
      ensures store.manifest == Some(lb) || (store.manifest == None && lb.spec.uuid !in lbs.rows)
      ensures outcome == Gone && lb.finalizer ==> store.manifest == None && lb.spec.uuid !in lbs.rows
      ensures !lb.finalizer ==> Moments() == old(Moments())
      ensures Zoned(old(lbs.rows)) ==> Zoned(lbs.rows)
      ensures OnlySwept(old(lbs.rows), lbs.rows, lb)
      ensures store.failures >= old(store.failures) && lbs.failures >= old(lbs.failures)
      ensures outcome == Aborted ==> store.failures > old(store.failures) || lbs.failures > old(lbs.failures)
      ensures S.Path(lb.key, SideOf(old(Moments())), JustRead(lb), SideOf(Moments()), Lifecycle.Idle)
    {
      hide Traced, S.Path;
      ghost var start := SideOf(Moments());
      S.PathSelf(lb.key, start, JustRead(lb));
      if lb.finalizer {
        var ok := Cleanup(lbs, lb);
        if !ok {
          return Aborted;
        }
        ghost var mid := SideOf(Moments());
        ok := store.Update(lb.(finalizer := false));
        FinalizerPath(lb, start, mid, SideOf(Moments()));
        if !ok {
          return Aborted;
        }
      }
      return Gone;
    }

    /** Lines 104-113: first the finalizer, then the load balancer. */
    method Acquire(given: LoadBalancer, env: Environment)
      returns (ok: bool, lb: LoadBalancer, id: string, row: Lifecycle.CloudLb)
      requires Valid() && WellNamed(env.nodes) && store.manifest == Some(given) && !given.deleting
      modifies store, lbs
      ensures Valid() && (Zoned(old(lbs.rows)) ==> Zoned(lbs.rows))
      ensures store.manifest == Some(given) || store.manifest == Some(given.(finalizer := true))
      ensures lbs.rows.Keys != old(lbs.rows).Keys ==> store.manifest == Some(given.(finalizer := true))
      ensures lb == given.(finalizer := true) &&
        (ok ==> store.manifest == Some(lb) && id in lbs.rows && lbs.rows[id] == row && id != "")
      ensures ok ==> if lb.spec.uuid == "" then Mine(row, lb) else id == lb.spec.uuid && Managed(lbs.rows, lb)
      ensures OnlyEnsured(old(lbs.rows), old(lbs.minted), lbs.rows, lb, env)
      ensures given.finalizer && Managed(old(lbs.rows), given) ==> Moments() == old(Moments())
      ensures store.failures >= old(store.failures) && lbs.failures >= old(lbs.failures)
      ensures !ok ==>
        || store.failures > old(store.failures) || lbs.failures > old(lbs.failures)
        || Unensurable(old(lbs.rows), given, env)
      ensures S.Path(given.key, SideOf(old(Moments())), JustRead(given), SideOf(Moments()),
                     WhenEnsured(ok, lb, id, row))
    {
      hide Traced, WellNamed, OnlyEnsured, Managed, S.Path, Lifecycle.Ensured, Unensurable;
      ghost var start := SideOf(Moments());
      S.PathSelf(given.key, start, JustRead(given));
      id, row := "", Lifecycle.CloudLb("", map[], "", "", "", []);
      lb := given.(finalizer := true);
      assert OnlyEnsured(lbs.rows, lbs.minted, lbs.rows, lb, env) by { Unchanged(lbs.rows, lbs.minted, lb, env); }
      if !given.finalizer {
        ok := store.Update(lb);
        AddingPath(given, lb, start, SideOf(Moments()), ok);
        if !ok {
          return;
        }
      }
      ghost var mid := SideOf(Moments());
      assert Managed(lbs.rows, lb) <==> Managed(lbs.rows, given) by { SameManaged(lbs.rows, lb, given); }
      SameUnensurable(lbs.rows, lb, given, env);
      ok, id, row := EnsureLoadBalancer(lbs, lb, env);
      S.PathChain(given.key, start, JustRead(given), mid, Lifecycle.Ensuring(0, S.ManifestOf(lb)), SideOf(Moments()),
                  WhenEnsured(ok, lb, id, row));
    }

    /** Lines 114-141: the manifest and the raw status, once the load balancer is there. */
    method Register(given: LoadBalancer, id: string, row: Lifecycle.CloudLb)
      returns (stop: Option<Outcome>, lb: LoadBalancer)
      requires store.manifest == Some(given) && given.finalizer && !given.deleting
      requires id != "" && id in lbs.rows && lbs.rows[id] == row && (given.spec.uuid != "" ==> id == given.spec.uuid)
      modifies store
      ensures stop in {None, Some(Aborted), Some(Requeued), Some(Changing)}
      ensures store.manifest.Some? && Progressed(given, store.manifest.value)
      ensures stop == Some(Requeued) ==>
        && (given.spec.uuid == "" || given.spec.zone == "")
        && store.manifest.value.spec.uuid == id && store.manifest.value.spec.zone == row.zone
      ensures given.spec.uuid != "" && given.spec.zone != "" ==>
        stop != Some(Requeued) && OnlyStatus(given, store.manifest)
      ensures stop == None ==>
        && store.manifest == Some(lb) && lb == given.(status := given.status.(cloudscaleStatus := row.status))
        && given.spec.uuid != "" && given.spec.zone != "" && row.status != "changing"
      ensures given.spec.uuid != "" && given.spec.zone != "" && row.status != "changing" ==>
        stop in {None, Some(Aborted)}
      ensures stop == Some(Changing) ==>
        && given.spec.uuid != "" && given.spec.zone != "" && row.status == "changing"
        && store.manifest.value.status.cloudscaleStatus == "changing"
      ensures store.failures == old(store.failures) + if stop == Some(Aborted) then 1 else 0
      ensures given.spec.uuid != "" && given.spec.zone != "" && given.status.cloudscaleStatus == row.status ==>
        store.manifest == old(store.manifest) && store.writes == old(store.writes)
      ensures S.Path(given.key, SideOf(old(Moments())), WhenEnsured(true, given, id, row), SideOf(Moments()),
                     if stop == None then Lifecycle.Children(0, S.ManifestOf(given)) else Lifecycle.Idle)
    {
      hide S.Path;
      ghost var start := SideOf(Moments());
      stop, lb := Some(Aborted), given;
      var ok;
      if lb.spec.uuid == "" {
        lb := lb.(spec := lb.spec.(uuid := id, zone := row.zone));
        ok := store.Update(lb);
        RecordPath(given, id, row, lb.spec, start, SideOf(Moments()));
        if ok {
          stop := Some(Requeued);
        }
        return;
      }
      if lb.spec.zone == "" {
        lb := lb.(spec := lb.spec.(zone := row.zone));
        ok := store.Update(lb);
        RecordPath(given, id, row, lb.spec, start, SideOf(Moments()));
        if ok {
          stop := Some(Requeued);
        }
        return;
      }
      if lb.status.cloudscaleStatus != row.status {
        lb := lb.(status := lb.status.(cloudscaleStatus := row.status));
        ok := store.UpdateStatus(lb.status);
        StatusPath(given.key, given, start, SideOf(Moments()), WhenEnsured(true, given, id, row));
        if !ok {
          return;
        }
      }
      StatusPath(given.key, given, start, SideOf(Moments()), WhenEnsured(true, given, id, row));
      if row.status == "changing" {
        stop := Some(Changing);
        return;
      }
      if lb.spec.uuid != id {
        return;
      }
      stop := None;
    }

    /** Lines 104-141: everything before the child phase. */
    method Prepare(given: LoadBalancer, env: Environment)
      returns (stop: Option<Outcome>, lb: LoadBalancer, row: Lifecycle.CloudLb)
      requires Valid() && WellNamed(env.nodes) && store.manifest == Some(given) && !given.deleting
      modifies store, lbs
      ensures Valid() && stop in {None, Some(Aborted), Some(Requeued), Some(Changing)}
      ensures Zoned(old(lbs.rows)) ==> Zoned(lbs.rows)
      ensures lbs.rows.Keys != old(lbs.rows).Keys ==> store.manifest.Some? && store.manifest.value.finalizer
      ensures store.manifest.Some? && Progressed(given, store.manifest.value)
      ensures stop == Some(Requeued) ==>
        && store.manifest.value.finalizer && (given.spec.uuid == "" || given.spec.zone == "")
        && store.manifest.value.spec.uuid in lbs.rows && store.manifest.value.spec.uuid != ""
        && store.manifest.value.spec.zone == lbs.rows[store.manifest.value.spec.uuid].zone
        && (given.spec.uuid == "" ==> Mine(lbs.rows[store.manifest.value.spec.uuid], given))
        && (given.spec.uuid != "" ==> Managed(lbs.rows, store.manifest.value))
      ensures stop == Some(Changing) ==>
        && given.spec.uuid != "" && given.spec.zone != "" && given.spec.uuid in old(lbs.rows)
        && old(lbs.rows)[given.spec.uuid].status == "changing"
        && store.manifest.value.status.cloudscaleStatus == "changing"
      ensures store.failures >= old(store.failures) && lbs.failures >= old(lbs.failures)
      ensures stop == Some(Aborted) ==>
        || store.failures > old(store.failures) || lbs.failures > old(lbs.failures)
        || Unensurable(old(lbs.rows), given, env)
      ensures OnlyEnsured(old(lbs.rows), old(lbs.minted), lbs.rows, given, env)
      ensures stop == None ==>
        store.manifest == Some(lb) && Ready(Moments()) && lb.spec == given.spec && lb.key == given.key
      ensures stop == None ==>
        row == lbs.rows[lb.spec.uuid] && lb.status == given.status.(cloudscaleStatus := row.status)
      ensures Ready(old(Moments())) ==>
        Now(lbs) == old(Now(lbs)) && stop in {None, Some(Aborted)} && OnlyStatus(given, store.manifest)
      ensures Ready(old(Moments())) && given.status.cloudscaleStatus == lbs.rows[given.spec.uuid].status ==>
        Moments() == old(Moments())
      ensures S.Path(given.key, SideOf(old(Moments())), JustRead(given), SideOf(Moments()),
                     if stop == None then Lifecycle.Children(0, S.ManifestOf(lb)) else Lifecycle.Idle)
    {
      hide Traced, WellNamed, Zoned, OnlyEnsured, S.Path, WhenEnsured, JustRead, Mine, Unensurable;
      stop := Some(Aborted);
      var ok, id;
      ghost var start, before, minted := SideOf(Moments()), lbs.rows, lbs.minted;
      ok, lb, id, row := Acquire(given, env);
      SameEnsured(before, minted, lbs.rows, lb, given, env);
      if !ok {
        assert WhenEnsured(ok, lb, id, row) == Lifecycle.Idle by { NotEnsured(lb, id, row); }
        return;
      }
      ghost var mid, ensured := SideOf(Moments()), lb;
      stop, lb := Register(lb, id, row);
      SameMine(row, ensured, given);
      if given.spec.uuid != "" {
        SameRaw(before, minted, lbs.rows, given, env);
      }
      S.PathChain(given.key, start, JustRead(given), mid, WhenEnsured(true, ensured, id, row), SideOf(Moments()),
                  if stop == None then Lifecycle.Children(0, S.ManifestOf(ensured)) else Lifecycle.Idle);
    }

    /** Lines 104-242: an object that is not being deleted. */
    method Advance(given: LoadBalancer, env: Environment) returns (outcome: Outcome)
      requires Valid() && WellNamed(env.nodes) && store.manifest == Some(given) && !given.deleting
      modifies store, lbs, pools, listeners, monitors, members, fips
      ensures Valid() && RunStep(old(Moments()), Moments(), env, outcome)
      ensures AllFailures() >= old(AllFailures())
      ensures Excused(old(Moments()), Moments(), env, outcome, AllFailures() > old(AllFailures()))
    {
      hide Traced, Hindered, Unensurable, WellNamed, Zoned, Bounded, Leaves, Quiet, Keeps, Followed, S.Path, JustRead,
        Ready, SameChildren,
        OnlyStatus, StatusCurrent, ToldApart, AtRest, Favourable, Tidied, Matching, Isolated,
        OnlyEnsured;
      ghost var before := Moments();
      var stop, lb, row := Prepare(given, env);
      ghost var mid := Moments();
      assert SameChildren(before, mid) by { ChildrenAlone(before, mid); }
      FollowedSoFar(before, mid, mid, given,
                    if stop == None then Lifecycle.Children(0, S.ManifestOf(lb)) else Lifecycle.Idle);
      if stop != None {
        Stopped(before, mid, env, given, stop.value);
        StoppedKeeps(before, mid, given);
        return stop.value;
      }
      StillFavourable(before, mid, env, given, lb);
      assert lb.spec.uuid in lbs.rows by { ReadyHas(mid); }
      var ok := Converge(lb, row, env);
      ghost var now := Moments();
      SameHindered(before, mid, now, env, given, lb);
      assert Went(before, mid, now, env, given, lb, row, ok);
      WentBounded(before, mid, now, env, given, lb, row, ok);
      WentLeaves(before, mid, now, env, given, lb, row, ok);
      WentQuiet(before, mid, now, env, given, lb, row, ok);
      WentKeeps(before, mid, now, env, given, lb, row, ok);
      FollowedSoFar(before, mid, now, given, Lifecycle.Children(0, S.ManifestOf(lb)));
      outcome := if ok then Finished else Aborted;
    }

    /** `Reconcile`. */
    method Reconcile(env: Environment) returns (outcome: Outcome)
      requires Valid() && WellNamed(env.nodes)
      modifies store, lbs, pools, listeners, monitors, members, fips
      ensures Valid() && RunStep(old(Moments()), Moments(), env, outcome)
      ensures AllFailures() >= old(AllFailures())
      ensures Excused(old(Moments()), Moments(), env, outcome, AllFailures() > old(AllFailures()))
    {
      hide Traced, Obstructed, WellNamed, Zoned, AtRest, StatusCurrent, ToldApart, Favourable, Tidied, Matching,
        Isolated,
        OnlyEnsured, OnlySwept, S.Path, JustRead;
      ghost var before := Moments();
      var ok, found := store.Get();
      NothingChanged(before, env);
      if !ok {
        return Aborted;
      }
      if found == None {
        return Gone;
      }
      if found.value.deleting {
        outcome := Finalize(found.value);
        ReadPath(found.value, SideOf(before), SideOf(Moments()));
      } else {
        outcome := Advance(found.value, env);
      }
    }
  }
}
