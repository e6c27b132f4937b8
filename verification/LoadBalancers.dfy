/** `ensureLoadBalancer` and `cleanupLoadBalancer` over the table of load balancers. */
module LoadBalancers {
  import opened Api
  import opened Tables
  import opened Nodes
  import opened Zones
  import opened Lifecycle
  import opened Simulation

  type Rows = map<string, CloudLb>

  /** The stores as the lifecycle machine sees them. */
  ghost function Here(lb: LoadBalancer, lbs: Table<CloudLb>): Side
    reads lbs
  {
    Side(Some(lb), lbs.rows, lbs.minted)
  }

  /** A load balancer created for this object. */
  predicate Mine(row: CloudLb, lb: LoadBalancer) {
    HasTag(row, CREATION, lb.uid) && row.name == CloudName(lb.key)
  }

  function Tagged(uid: string): CloudLb -> bool {
    (row: CloudLb) => HasTag(row, CREATION, uid)
  }

  /** Lines 752-761: the first listed load balancer with the derived name. */
  method FindMine(lbs: Table<CloudLb>, lb: LoadBalancer) returns (ok: bool, found: Option<(string, CloudLb)>)
    modifies lbs`failures
    ensures lbs.failures == old(lbs.failures) + if ok then 0 else 1
    ensures ok && found.Some? ==>
      found.value.0 in lbs.rows && lbs.rows[found.value.0] == found.value.1 && Mine(found.value.1, lb)
    ensures ok && found.None? ==> forall id :: id in lbs.rows ==> !Mine(lbs.rows[id], lb)
    ensures ok ==> Path(lb.key, Here(lb, lbs), LookingUp(0, ManifestOf(lb)), Here(lb, lbs),
                        if found.Some? then Ensured(0, ManifestOf(lb), found.value.0, found.value.1) else Creating(0,
                            ManifestOf(lb)))
  {
    hide Path;
    var listed;
    found := None;
    ok, listed := lbs.List(Tagged(lb.uid));
    if !ok {
      return;
    }
    for n := 0 to |listed|
      invariant forall i :: 0 <= i < n ==> listed[i].1.name != CloudName(lb.key)
    {
      if listed[n].1.name == CloudName(lb.key) {
        LooksUp(lb.key, Here(lb, lbs), ManifestOf(lb), Some(listed[n].0));
        return true, Some(listed[n]);
      }
    }
    forall id | id in lbs.rows ensures !Mine(lbs.rows[id], lb) {
      if Tagged(lb.uid)(lbs.rows[id]) {
        var i :| 0 <= i < |listed| && listed[i] == (id, lbs.rows[id]);
      }
    }
    LooksUp(lb.key, Here(lb, lbs), ManifestOf(lb), None);
  }

  /** The row differs only in its tags. */
  function Adopted(row: CloudLb): CloudLb {
    row.(tags := row.tags[MANAGED := "true"][ADOPTED := "true"])
  }

  /** The load balancer recorded in the object is there, and managed. */
  ghost predicate Managed(rows: Rows, lb: LoadBalancer) {
    lb.spec.uuid in rows && HasTag(rows[lb.spec.uuid], MANAGED, "true")
  }

  /** The cloud assigns one address per requested virtual IP, the requested one if there is one. */
  ghost predicate Assigned(vips: seq<string>, requested: seq<VirtualIP>) {
    requested != [] ==>
      |vips| == |requested| && forall i :: 0 <= i < |vips| ==> requested[i].address != "" ==>
        vips[i] == requested[i].address
  }

  /** Lines 772-783: no list at all is requested if none is specified, and the cloud chooses. */
  method AssignAddresses(requested: seq<VirtualIP>) returns (vips: seq<string>)
    ensures Assigned(vips, requested)
  {
    if requested == [] {
      vips := *;
      return;
    }
    vips := [];
    for i := 0 to |requested|
      invariant |vips| == i && forall j :: 0 <= j < i ==> requested[j].address != "" ==> vips[j] == requested[j].address
    {
      var address: string := *;
      vips := vips + [if requested[i].address != "" then requested[i].address else address];
    }
  }

  /** The zone of a new load balancer: the specified one, or else the one zone all servers of all pools are in. */
  ghost predicate ZoneFor(env: Environment, lb: LoadBalancer, zone: string) {
    if lb.spec.zone != "" then zone == lb.spec.zone
    else Readable(env, PoolSet(lb.spec.pools)) && ZonesOf(env, PoolSet(lb.spec.pools)) == {zone}
  }

  ghost predicate NoZone(env: Environment, lb: LoadBalancer) {
    forall zone :: !ZoneFor(env, lb, zone)
  }

  /** A load balancer as it is created for the object. */
  ghost predicate AsCreated(row: CloudLb, lb: LoadBalancer, env: Environment) {
    && Assigned(row.vips, lb.spec.virtualIPs) && row.name == CloudName(lb.key) && row.flavor == "lb-standard"
    && row.tags == CreationTags(lb.uid) && ZoneFor(env, lb, row.zone)
  }

  ghost predicate CreatedAs(before: Rows, minted: set<string>, now: Rows, lb: LoadBalancer, env: Environment,
                            id: string) {
    id !in minted && id != "" && id in now && AsCreated(now[id], lb, env) && now == before[id := now[id]]
  }

  /** An unmanaged load balancer may be adopted with no virtual IPs specified, of the standard flavor, in the specified
      zone if there is one. */
  ghost predicate MayAdopt(lb: LoadBalancer, row: CloudLb) {
    lb.spec.virtualIPs == [] && row.flavor == "lb-standard" && (lb.spec.zone == "" || row.zone == lb.spec.zone)
  }

  lemma AdoptableExactly(lb: LoadBalancer, row: CloudLb)
    ensures Adoptable(ManifestOf(lb), row) <==> MayAdopt(lb, row)
  {
  }

  /** The recorded load balancer is there, and managed or to be adopted. */
  ghost predicate Fetchable(rows: Rows, lb: LoadBalancer) {
    lb.spec.uuid in rows && (Managed(rows, lb) || MayAdopt(lb, rows[lb.spec.uuid]))
  }

  /** Why a load balancer cannot be ensured although every call is answered: there is none and no zone for a new one;
      or the recorded one is missing, or not managed and not to be adopted. */
  ghost predicate Unensurable(rows: Rows, lb: LoadBalancer, env: Environment) {
    if lb.spec.uuid == "" then (forall id :: id in rows ==> !Mine(rows[id], lb)) && NoZone(env, lb)
    else !Fetchable(rows, lb)
  }

  /** The only row that may differ is the one ensured: a new one if there was none for the object, or the
      recorded one, adopted. */
  ghost predicate OnlyEnsured(before: Rows, minted: set<string>, now: Rows, lb: LoadBalancer, env: Environment) {
    || now == before
    || (lb.spec.uuid == "" && (forall id :: id in before ==> !Mine(before[id], lb)) &&
          exists id :: CreatedAs(before, minted, now, lb, env, id))
    || (lb.spec.uuid in before && !HasTag(before[lb.spec.uuid], MANAGED, "true") &&
          MayAdopt(lb, before[lb.spec.uuid])
        && now == before[lb.spec.uuid := Adopted(before[lb.spec.uuid])])
  }

  lemma CreatedRow(before: Rows, minted: set<string>, id: string, row: CloudLb, lb: LoadBalancer, env: Environment)
    requires lb.spec.uuid == "" && (forall i :: i in before ==> !Mine(before[i], lb)) && id !in minted && id != "" &&
      AsCreated(row, lb, env)
    ensures OnlyEnsured(before, minted, before[id := row], lb, env) && Mine(row, lb)
  {
    var now := before[id := row];
    assert CreatedAs(before, minted, now, lb, env, id);
  }

  /** Lines 763-807: a new load balancer; its status and addresses are up to the cloud. */
  method CreateMine(lbs: Table<CloudLb>, lb: LoadBalancer, env: Environment)
    returns (ok: bool, id: string, row: CloudLb)
    requires lbs.Valid() && WellNamed(env.nodes) && lb.spec.uuid == ""
    requires forall i :: i in lbs.rows ==> !Mine(lbs.rows[i], lb)
    modifies lbs
    ensures lbs.Valid() && old(lbs.minted) <= lbs.minted && old(lbs.log) <= lbs.log && |lbs.log| <= |old(lbs.log)| + 1
    ensures OnlyEnsured(old(lbs.rows), old(lbs.minted), lbs.rows, lb, env)
    ensures ok ==>
      id != "" && id in lbs.rows && lbs.rows[id] == row && Mine(row, lb) && row.zone != "" && id !in old(lbs.minted)
    ensures forall i :: i in lbs.rows && i !in old(lbs.rows) ==> lbs.rows[i].zone != ""
    ensures NoZone(env, lb) ==>
      !ok && lbs.rows == old(lbs.rows) && lbs.minted == old(lbs.minted) && lbs.log == old(lbs.log)
    ensures lbs.failures >= old(lbs.failures) && (ok ==> lbs.failures == old(lbs.failures))
    ensures lbs.failures == old(lbs.failures) ==> ok || NoZone(env, lb)
    ensures Path(lb.key, old(Here(lb, lbs)), Creating(0, ManifestOf(lb)), Here(lb, lbs),
                 if ok then Ensured(0, ManifestOf(lb), id, row) else Idle)
  {
    hide Traced, Path, Assigned, Readable, ZonesOf, PoolSet;
    ghost var start := Here(lb, lbs);
    Fails(lb.key, start, Creating(0, ManifestOf(lb)));
    ok, id, row := false, "", CloudLb("", map[], "", "", "", []);
    var zone := lb.spec.zone;
    if zone == "" {
      var guess := GuessZone(env, lb.spec.pools);
      if guess == None {
        return;
      }
      zone := guess.value;
    }
    assert ZoneFor(env, lb, zone);
    var status: string := *;
    var vips := AssignAddresses(lb.spec.virtualIPs);
    row := CloudLb(CloudName(lb.key), CreationTags(lb.uid), zone, FLAVOR, status, vips);
    ghost var before, minted := lbs.rows, lbs.minted;
    ok, id := lbs.Create(row);
    CreatedRow(before, minted, id, row, lb, env);
    if lbs.rows == before {
      SameSide(lb.key, start, Here(lb, lbs), Idle);
      PathChain(lb.key, start, Creating(0, ManifestOf(lb)), start, Idle, Here(lb, lbs), Idle);
    } else {
      Creates(lb.key, start, Here(lb, lbs), ManifestOf(lb), id, ok);
    }
  }

  /** Lines 810-849: fetch the recorded load balancer, and adopt it if it is not managed yet. */
  method FetchOrAdopt(lbs: Table<CloudLb>, lb: LoadBalancer, ghost env: Environment) returns (ok: bool, row: CloudLb)
    requires lbs.Valid() && lb.spec.uuid != ""
    modifies lbs
    ensures lbs.Valid() && lbs.minted == old(lbs.minted) && old(lbs.log) <= lbs.log && |lbs.log| <= |old(lbs.log)| + 1
    ensures OnlyEnsured(old(lbs.rows), old(lbs.minted), lbs.rows, lb, env)
    ensures ok ==> Managed(lbs.rows, lb) && lbs.rows[lb.spec.uuid] == row
    ensures Managed(old(lbs.rows), lb) ==> lbs.rows == old(lbs.rows) && lbs.log == old(lbs.log)
    ensures lbs.failures >= old(lbs.failures) && (ok ==> lbs.failures == old(lbs.failures))
    ensures !Fetchable(old(lbs.rows), lb) ==> !ok && lbs.rows == old(lbs.rows) && lbs.log == old(lbs.log)
    ensures lbs.failures == old(lbs.failures) ==> (ok <==> Fetchable(old(lbs.rows), lb))
    ensures lbs.rows.Keys == old(lbs.rows).Keys && forall i :: i in lbs.rows ==>
      lbs.rows[i].zone == old(lbs.rows)[i].zone
    ensures Path(lb.key, old(Here(lb, lbs)), Fetching(0, ManifestOf(lb)), Here(lb, lbs),
                 if ok then Ensured(0, ManifestOf(lb), lb.spec.uuid, row) else Idle)
  {
    hide Traced, Path, Ensured;
    ghost var k, m, start := lb.key, ManifestOf(lb), Here(lb, lbs);
    Fails(k, start, Fetching(0, m));
    var got;
    row := CloudLb("", map[], "", "", "", []);
    ok, got := lbs.Get(lb.spec.uuid);
    if !ok {
      return;
    }
    row := got.value;
    AdoptableExactly(lb, row);
    Fetches(k, start, m);
    if HasTag(row, MANAGED, "true") {
      return;
    }
    if !Adoptable(ManifestOf(lb), row) {
      return false, row;
    }
    ghost var spot := Adopting(0, m, Adopted(row).tags);
    ok := lbs.Patch(lb.spec.uuid, Adopted);
    if lbs.rows == start.lbs && !ok {
      Fails(k, start, spot);
    } else {
      Adopts(k, start, Here(lb, lbs), m, Adopted(row).tags, ok);
    }
    row := Adopted(row);
    PathChain(k, start, Fetching(0, m), start, spot, Here(lb, lbs),
              if ok then Ensured(0, m, lb.spec.uuid, row) else Idle);
  }

  /** `ensureLoadBalancer`: at most one call changes the cloud, and it creates a load balancer only if none
      was created for this object yet, or adopts the recorded one. */
  method EnsureLoadBalancer(lbs: Table<CloudLb>, lb: LoadBalancer, env: Environment)
    returns (ok: bool, id: string, row: CloudLb)
    requires lbs.Valid() && WellNamed(env.nodes)
    modifies lbs
    ensures lbs.Valid() && old(lbs.minted) <= lbs.minted && old(lbs.log) <= lbs.log && |lbs.log| <= |old(lbs.log)| + 1
    ensures OnlyEnsured(old(lbs.rows), old(lbs.minted), lbs.rows, lb, env)
    ensures ok ==> id != "" && id in lbs.rows && lbs.rows[id] == row
    ensures ok ==> if lb.spec.uuid == "" then Mine(row, lb) else id == lb.spec.uuid && Managed(lbs.rows, lb)
    ensures Managed(old(lbs.rows), lb) ==>
      lbs.rows == old(lbs.rows) && lbs.log == old(lbs.log) && lbs.minted == old(lbs.minted)
    ensures Unensurable(old(lbs.rows), lb, env) ==>
      !ok && lbs.rows == old(lbs.rows) && lbs.log == old(lbs.log) && lbs.minted == old(lbs.minted)
    ensures lbs.failures >= old(lbs.failures) && (ok ==> lbs.failures == old(lbs.failures))
    ensures lbs.failures == old(lbs.failures) ==> ok || Unensurable(old(lbs.rows), lb, env)
    ensures (forall i :: i in old(lbs.rows) ==> old(lbs.rows)[i].zone != "") ==> forall i :: i in lbs.rows ==>
      lbs.rows[i].zone != ""
    ensures Path(lb.key, old(Here(lb, lbs)), Ensuring(0, ManifestOf(lb)), Here(lb, lbs),
                 if ok then Ensured(0, ManifestOf(lb), id, row) else Idle)
  {
    hide Traced, OnlyEnsured, Path, Ensured, NoZone, MayAdopt;
    ghost var k, m, start := lb.key, ManifestOf(lb), Here(lb, lbs);
    assert OnlyEnsured(lbs.rows, lbs.minted, lbs.rows, lb, env) by { Unchanged(lbs.rows, lbs.minted, lb, env); }
    if lb.spec.uuid == "" {
      var found;
      ok, found := FindMine(lbs, lb);
      if !ok {
        Fails(k, start, LookingUp(0, m));
        return false, "", CloudLb("", map[], "", "", "", []);
      }
      if found.Some? {
        return true, found.value.0, found.value.1;
      }
      ghost var before, minted := lbs.rows, lbs.minted;
      ok, id, row := CreateMine(lbs, lb, env);
      PathChain(k, start, LookingUp(0, m), start, Creating(0, m), Here(lb, lbs),
                if ok then Ensured(0, m, id, row) else Idle);
      if forall i :: i in before ==> before[i].zone != "" {
        ZonesKept(before, minted, lbs.rows, lb, env);
      }
    } else {
      id := lb.spec.uuid;
      ok, row := FetchOrAdopt(lbs, lb, env);
    }
  }

  lemma Unchanged(rows: Rows, minted: set<string>, lb: LoadBalancer, env: Environment)
    ensures OnlyEnsured(rows, minted, rows, lb, env)
  {
  }

  lemma ZonesKept(before: Rows, minted: set<string>, now: Rows, lb: LoadBalancer, env: Environment)
    requires OnlyEnsured(before, minted, now, lb, env) && before.Keys <= minted && lb.spec.uuid !in before
    requires forall i :: i in before ==> before[i].zone != ""
    requires forall i :: i in now && i !in before ==> now[i].zone != ""
    ensures forall i :: i in now ==> now[i].zone != ""
  {
  }

  // ---------------------------------------------------------------- cleanup

  function ManagedBy(uid: string): CloudLb -> bool {
    (row: CloudLb) => SweepFilter(AsWritten, row, uid)
  }

  /** What the sweep of the cleanup is to delete. */
  predicate Sweepable(row: CloudLb, lb: LoadBalancer) {
    SweepFilter(AsWritten, row, lb.uid) && row.name == CloudName(lb.key)
  }

  /** Only the recorded load balancer and those selected by the filter are gone. */
  ghost predicate OnlySwept(before: Rows, now: Rows, lb: LoadBalancer) {
    && (forall id :: id in now ==> id in before && now[id] == before[id])
    && (forall id :: id in before && id !in now ==> id == lb.spec.uuid || Sweepable(before[id], lb))
  }

  /** Nothing but selected load balancers is gone; and if `all`, no selected one is left. */
  ghost predicate SweptOnly(before: Rows, now: Rows, lb: LoadBalancer, all: bool) {
    && (forall id :: id in now ==> id in before && now[id] == before[id])
    && (forall id :: id in before && id !in now ==> Sweepable(before[id], lb))
    && (all ==> forall id :: id in now ==> !Sweepable(now[id], lb))
  }

  /** Lines 926-941: deletes what the filter and the name select, and nothing else. */
  method Sweep(lbs: Table<CloudLb>, lb: LoadBalancer) returns (ok: bool)
    requires lbs.Valid()
    modifies lbs
    ensures lbs.Valid() && SweptOnly(old(lbs.rows), lbs.rows, lb, ok)
    ensures lbs.failures == old(lbs.failures) + if ok then 0 else 1
    ensures Path(lb.key, old(Here(lb, lbs)), Sweeping(0, ManifestOf(lb)), Here(lb, lbs),
                 if ok then RemovingFinalizer(0, ManifestOf(lb)) else Idle)
  {
    hide Traced, Path;
    ghost var k, m, start := lb.key, ManifestOf(lb), Here(lb, lbs);
    var listed;
    ok, listed := lbs.List(ManagedBy(lb.uid));
    if !ok {
      Fails(k, start, Sweeping(0, m));
      return;
    }
    var toDelete := Named(listed, lb);
    Selected(start.lbs, listed, lb, toDelete);
    Sweeps(k, start, m, toDelete);
    hide Sweepable, Enumerates, SweepFilter;
    ok := Purge(lbs, lb, toDelete);
    PathChain(k, start, Sweeping(0, m), start, Purging(0, m, toDelete), Here(lb, lbs),
              if ok then RemovingFinalizer(0, m) else Idle);
  }

  /** Lines 930-935: of the listed load balancers, those with the derived name. */
  method Named(listed: seq<(string, CloudLb)>, lb: LoadBalancer) returns (toDelete: seq<string>)
    requires forall i, j :: 0 <= i < j < |listed| ==> listed[i].0 != listed[j].0
    ensures forall i, j :: 0 <= i < j < |toDelete| ==> toDelete[i] != toDelete[j]
    ensures forall id :: id in toDelete <==>
      exists i :: 0 <= i < |listed| && listed[i].0 == id && listed[i].1.name == CloudName(lb.key)
  {
    toDelete := [];
    for n := 0 to |listed|
      invariant forall i, j :: 0 <= i < j < |toDelete| ==> toDelete[i] != toDelete[j]
      invariant forall id :: id in toDelete <==>
        exists i :: 0 <= i < n && listed[i].0 == id && listed[i].1.name == CloudName(lb.key)
    {
      if listed[n].1.name == CloudName(lb.key) {
        assert listed[n].0 !in toDelete;
        toDelete := toDelete + [listed[n].0];
      }
    }
  }

  lemma Selected(before: Rows, listed: seq<(string, CloudLb)>, lb: LoadBalancer, toDelete: seq<string>)
    requires Enumerates(listed, before, ManagedBy(lb.uid))
    requires forall id :: id in toDelete <==>
      exists i :: 0 <= i < |listed| && listed[i].0 == id && listed[i].1.name == CloudName(lb.key)
    ensures forall id :: id in toDelete <==> id in before && Sweepable(before[id], lb)
  {
    forall id | id in before && Sweepable(before[id], lb) ensures id in toDelete {
      assert ManagedBy(lb.uid)(before[id]);
      var i :| 0 <= i < |listed| && listed[i] == (id, before[id]);
    }
  }

  /** Lines 936-941. */
  method Purge(lbs: Table<CloudLb>, lb: LoadBalancer, toDelete: seq<string>) returns (ok: bool)
    requires lbs.Valid() && forall id :: id in toDelete <==> id in lbs.rows && Sweepable(lbs.rows[id], lb)
    requires forall i, j :: 0 <= i < j < |toDelete| ==> toDelete[i] != toDelete[j]
    modifies lbs
    ensures lbs.Valid() && SweptOnly(old(lbs.rows), lbs.rows, lb, ok)
    ensures lbs.failures == old(lbs.failures) + if ok then 0 else 1
    ensures Path(lb.key, old(Here(lb, lbs)), Purging(0, ManifestOf(lb), toDelete), Here(lb, lbs),
                 if ok then RemovingFinalizer(0, ManifestOf(lb)) else Idle)
  {
    hide Traced, Path, Sweepable;
    ghost var k, m, start := lb.key, ManifestOf(lb), Here(lb, lbs);
    PathSelf(k, start, Purging(0, m, toDelete));
    assert toDelete[0..] == toDelete;
    assert forall i :: 0 <= i < |toDelete| ==> toDelete[i] in toDelete;
    var n := 0;
    while n < |toDelete|
      invariant n <= |toDelete| && lbs.Valid() && SweptOnly(start.lbs, lbs.rows, lb, false)
      invariant forall i :: 0 <= i < n ==> toDelete[i] !in lbs.rows
      invariant lbs.failures == old(lbs.failures) && forall i :: n <= i < |toDelete| ==> toDelete[i] in lbs.rows
      invariant Path(k, start, Purging(0, m, toDelete), Here(lb, lbs), Purging(0, m, toDelete[n..]))
    {
      var missing;
      ghost var here := Here(lb, lbs);
      assert toDelete[n] in toDelete && toDelete[n..][0] == toDelete[n] && toDelete[n..][1..] == toDelete[n + 1..];
      ok, missing := lbs.Delete(toDelete[n]);
      Deleted(k, here, Here(lb, lbs), m, toDelete[n..], ok);
      PathChain(k, start, Purging(0, m, toDelete), here, Purging(0, m, toDelete[n..]), Here(lb, lbs),
                if ok then Purging(0, m, toDelete[n + 1..]) else Idle);
      if !ok {
        return;
      }
      n := n + 1;
    }
    ok := true;
    assert toDelete[n..] == [];
    Purged(k, Here(lb, lbs), m);
    PathChain(k, start, Purging(0, m, toDelete), Here(lb, lbs), Purging(0, m, []), Here(lb, lbs),
              RemovingFinalizer(0, m));
  }

  /** One delete call of the loop, whatever its outcome. */
  lemma Deleted(k: Key, a: Side, b: Side, m: Manifest, todo: seq<string>, ok: bool)
    requires todo != [] && (b == a || b == a.(lbs := a.lbs - {todo[0]})) &&
      (ok ==> todo[0] in a.lbs && b == a.(lbs := a.lbs - {todo[0]}))
    ensures Path(k, a, Purging(0, m, todo), b, if ok then Purging(0, m, todo[1..]) else Idle)
  {
    hide Path;
    if todo[0] in a.lbs && b == a.(lbs := a.lbs - {todo[0]}) {
      Purges(k, a, b, m, todo, ok);
    } else {
      assert b == a;
      Fails(k, a, Purging(0, m, todo));
    }
  }

  /** Where the cleanup starts. */
  function CleaningUp(m: Manifest): Pc {
    if m.uuid != "" then DeletingNamed(0, m) else Sweeping(0, m)
  }

  /** `cleanupLoadBalancer`, as written: a recorded load balancer that is missing ends the work early. */
  method Cleanup(lbs: Table<CloudLb>, lb: LoadBalancer) returns (ok: bool)
    requires lbs.Valid()
    modifies lbs
    ensures lbs.Valid() && OnlySwept(old(lbs.rows), lbs.rows, lb)
    ensures ok ==> lb.spec.uuid !in lbs.rows
    ensures lbs.failures == old(lbs.failures) + if ok then 0 else 1
    ensures ok && (lb.spec.uuid == "" || lb.spec.uuid in old(lbs.rows)) ==> forall id :: id in lbs.rows ==>
      !Sweepable(lbs.rows[id], lb)
    ensures ok && lb.spec.uuid != "" && lb.spec.uuid !in old(lbs.rows) ==> lbs.rows == old(lbs.rows)
    ensures Path(lb.key, old(Here(lb, lbs)), CleaningUp(ManifestOf(lb)), Here(lb, lbs),
                 if ok then RemovingFinalizer(0, ManifestOf(lb)) else Idle)
  {
    hide Traced, Path, Sweepable;
    ghost var k, m, start := lb.key, ManifestOf(lb), Here(lb, lbs);
    PathSelf(k, start, CleaningUp(m));
    if lb.spec.uuid != "" {
      var missing;
      ok, missing := lbs.Delete(lb.spec.uuid);
      NamedDeleted(k, start, Here(lb, lbs), m, ok, missing);
      if missing {
        return true;
      }
      if !ok {
        return;
      }
    }
    ghost var mid := Here(lb, lbs);
    ok := Sweep(lbs, lb);
    SweptChain(start.lbs, mid.lbs, lbs.rows, lb, ok);
    PathChain(k, start, CleaningUp(m), mid, Sweeping(0, m), Here(lb, lbs),
              if ok then RemovingFinalizer(0, m) else Idle);
  }

  lemma NamedDeleted(k: Key, a: Side, b: Side, m: Manifest, ok: bool, missing: bool)
    requires m.uuid != "" && (b == a || b == a.(lbs := a.lbs - {m.uuid}))
    requires (ok ==> m.uuid in a.lbs && b == a.(lbs := a.lbs - {m.uuid})) &&
      (missing ==> !ok && m.uuid !in a.lbs && b == a)
    ensures Path(k, a, CleaningUp(m), b,
                 if ok then Sweeping(0, m) else if missing then RemovingFinalizer(0, m) else Idle)
  {
    hide Path;
    if missing {
      MissesNamed(k, a, m);
    } else if m.uuid in a.lbs && b == a.(lbs := a.lbs - {m.uuid}) {
      DeletesNamed(k, a, b, m, ok);
    } else {
      assert b == a;
      Fails(k, a, DeletingNamed(0, m));
    }
  }

  lemma SweptChain(a: Rows, b: Rows, c: Rows, lb: LoadBalancer, all: bool)
    requires (b == a || b == a - {lb.spec.uuid}) && SweptOnly(b, c, lb, all)
    ensures OnlySwept(a, c, lb)
  {
  }
}
