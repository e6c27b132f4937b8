/** How the methods that call the object store and the cloud follow the lifecycle machine. */
module Simulation {
  import opened Api
  import opened Lifecycle
  import opened LifecycleTheorems

  /** What the two stores hold, as far as the machine is concerned: the object, the load balancers and every
      identifier ever handed out. */
  datatype Side = Side(manifest: Option<LoadBalancer>, lbs: map<string, CloudLb>, minted: set<string>)

  /** The part of an object that the lifecycle protocol depends on. */
  function ManifestOf(lb: LoadBalancer): Manifest {
    Manifest(lb.uid, lb.finalizer, lb.deleting, lb.spec.uuid, lb.spec.zone, lb.spec.virtualIPs != [])
  }

  function VersionOf(manifest: Option<LoadBalancer>): Version {
    if manifest == None then Absent else Present(ManifestOf(manifest.value))
  }

  /** The worker stands at `spot`, with its copy of the manifest being the newest version. */
  ghost predicate Stands(w: Slot, spot: Pc) {
    if spot == Idle then w.pc == Idle else w.history != [] && w.pc == spot.(at := |w.history| - 1)
  }

  /** The machine state holds what the stores hold. */
  ghost predicate Mirrors(s: System, k: Key, a: Side, spot: Pc) {
    && Known(s, k) && s.slots[k].seen < |s.slots[k].history| && Last(s.slots[k].history) == VersionOf(a.manifest)
    && s.lbs == a.lbs && s.minted <= a.minted && Stands(s.slots[k], spot)
  }

  ghost predicate Linked(states: seq<System>, actions: seq<Action>) {
    |states| == |actions| + 1 && forall i :: 0 <= i < |actions| ==>
      Next(AsWritten, states[i], actions[i], states[i + 1])
  }

  /** The machine gets from `s` to `t`. */
  ghost predicate Walk(s: System, t: System) {
    exists states, actions :: Linked(states, actions) && states[0] == s && states[|actions|] == t
  }

  ghost predicate Onward(s: System, k: Key, b: Side, q: Pc) {
    exists t :: Walk(s, t) && Mirrors(t, k, b, q)
  }

  /** Wherever the machine mirrors `a` with the worker at `p`, it can go on to mirror `b` with the worker at `q`. */
  ghost predicate Path(k: Key, a: Side, p: Pc, b: Side, q: Pc) {
    forall s :: Mirrors(s, k, a, p) ==> Onward(s, k, b, q)
  }

  lemma WalkSelf(s: System)
    ensures Walk(s, s)
  {
    assert Linked([s], []) && [s][0] == s;
  }

  lemma WalkChain(s: System, t: System, u: System)
    requires Walk(s, t) && Walk(t, u)
    ensures Walk(s, u)
  {
    hide Next;
    var xs, a :| Linked(xs, a) && xs[0] == s && xs[|a|] == t;
    var ys, b :| Linked(ys, b) && ys[0] == t && ys[|b|] == u;
    var zs, c := xs + ys[1..], a + b;
    forall i | 0 <= i < |c| ensures Next(AsWritten, zs[i], c[i], zs[i + 1]) {
      if i < |a| {
        assert zs[i] == xs[i] && zs[i + 1] == xs[i + 1];
      } else {
        assert zs[i] == ys[i - |a|] && zs[i + 1] == ys[i - |a| + 1];
      }
    }
    assert Linked(zs, c) && zs[0] == s && zs[|c|] == u;
  }

  lemma WalkOne(s: System, a: Action, t: System)
    requires Next(AsWritten, s, a, t)
    ensures Walk(s, t)
  {
    hide Next;
    assert Linked([s, t], [a]) && [s, t][0] == s && [s, t][1] == t;
  }

  lemma PathSelf(k: Key, a: Side, p: Pc)
    ensures Path(k, a, p, a, p)
  {
    hide Walk, Mirrors;
    forall s | Mirrors(s, k, a, p) ensures Onward(s, k, a, p) {
      WalkSelf(s);
    }
  }

  lemma PathChain(k: Key, a: Side, p: Pc, b: Side, q: Pc, c: Side, r: Pc)
    requires Path(k, a, p, b, q) && Path(k, b, q, c, r)
    ensures Path(k, a, p, c, r)
  {
    hide Walk, Mirrors;
    forall s | Mirrors(s, k, a, p) ensures Onward(s, k, c, r) {
      var t :| Walk(s, t) && Mirrors(t, k, b, q);
      var u :| Walk(t, u) && Mirrors(u, k, c, r);
      WalkChain(s, t, u);
    }
  }

  /** A path of one step. */
  lemma Stepped(s: System, k: Key, act: Action, t: System, b: Side, q: Pc)
    requires Next(AsWritten, s, act, t) && Mirrors(t, k, b, q)
    ensures Onward(s, k, b, q)
  {
    hide Next, Mirrors, Walk;
    WalkOne(s, act, t);
  }

  /** Only the lifecycle part of the object matters, and identifiers may be handed out in vain. */
  lemma SameSide(k: Key, a: Side, b: Side, p: Pc)
    requires VersionOf(a.manifest) == VersionOf(b.manifest) && a.lbs == b.lbs && a.minted <= b.minted
    ensures Path(k, a, p, b, p)
  {
    hide Walk;
    forall s | Mirrors(s, k, a, p) ensures Onward(s, k, b, p) {
      WalkSelf(s);
      assert Mirrors(s, k, b, p);
    }
  }

  // ---------------------------------------------------------------- the steps

  lemma EnsureStepped(s: System, k: Key, act: Action, t: System, b: Side, q: Pc)
    requires act.AddFinalizer? || act.LookUp? || act.CreateLb? || act.FetchLb? || act.AdoptLb? || act.Record? ||
      act.RecordZone?
    requires Known(s, act.k) && EnsureStep(s, act, t) && Mirrors(t, k, b, q)
    ensures Onward(s, k, b, q)
  {
    hide EnsureStep, Mirrors, Onward;
    assert Next(AsWritten, s, act, t);
    Stepped(s, k, act, t, b, q);
  }

  lemma CleanupStepped(s: System, k: Key, act: Action, t: System, b: Side, q: Pc)
    requires act.DeleteNamed? || act.NamedMissing? || act.Sweep? || act.Purge? || act.PurgeDone? || act.RemoveFinalizer?
    requires Known(s, act.k) && CleanupStep(AsWritten, s, act, t) && Mirrors(t, k, b, q)
    ensures Onward(s, k, b, q)
  {
    hide CleanupStep, Mirrors, Onward;
    assert Next(AsWritten, s, act, t);
    Stepped(s, k, act, t, b, q);
  }

  /** A failed call, or an error in between. */
  lemma Fails(k: Key, a: Side, p: Pc)
    ensures Path(k, a, p, a, Idle)
  {
    forall s | Mirrors(s, k, a, p) ensures Onward(s, k, a, Idle) {
      var t := Goto(s, k, Idle);
      assert Next(AsWritten, s, Fail(k), t);
      Stepped(s, k, Fail(k), t, a, Idle);
    }
  }

  lemma Reads(k: Key, a: Side)
    ensures Path(k, a, Idle, a, AfterRead(0, VersionOf(a.manifest)))
  {
    var q := AfterRead(0, VersionOf(a.manifest));
    forall s | Mirrors(s, k, a, Idle) ensures Onward(s, k, a, q) {
      var at := |s.slots[k].history| - 1;
      var t := s.(slots := s.slots[k := s.slots[k].(seen := at, pc := AfterRead(at, s.slots[k].history[at]))]);
      assert ReadStep(s, k, at, t);
      assert Next(AsWritten, s, Read(k, at), t);
      Stepped(s, k, Read(k, at), t, a, q);
    }
  }

  /** The worker moves on, and the stores with it. */
  lemma Moved(s: System, k: Key, a: Side, p: Pc, b: Side, q: Pc, t: System, pc: Pc)
    requires Mirrors(s, k, a, p) && b.manifest == a.manifest && t.slots == Goto(s, k, pc).slots && t.lbs == b.lbs &&
      t.minted <= b.minted
    requires pc == if q == Idle then Idle else q.(at := |s.slots[k].history| - 1)
    ensures Mirrors(t, k, b, q)
  {
  }

  /** What a mirroring state says about the worker. */
  lemma Standing(s: System, k: Key, a: Side, p: Pc)
    requires Mirrors(s, k, a, p) && p != Idle
    ensures Known(s, k) && s.slots[k].pc == p.(at := |s.slots[k].history| - 1) && s.lbs == a.lbs && s.minted <= a.minted
  {
  }

  /** A worker's write of the manifest. */
  lemma Appends(s: System, k: Key, a: Side, p: Pc, b: Side, q: Pc, t: System, pc: Pc)
    requires Mirrors(s, k, a, p) && b.lbs == a.lbs && a.minted <= b.minted
    requires t.slots == Goto(Append(s, k, VersionOf(b.manifest)), k, pc).slots && t.lbs == s.lbs && t.minted == s.minted
    requires pc == if q == Idle then Idle else q.(at := |s.slots[k].history|)
    ensures Mirrors(t, k, b, q)
  {
  }

  lemma AddsFinalizer(k: Key, a: Side, b: Side, answered: bool)
    requires a.manifest.Some? && b.manifest.Some? && a.lbs == b.lbs && a.minted == b.minted
    requires ManifestOf(b.manifest.value) == ManifestOf(a.manifest.value).(finalizer := true)
    ensures var m := ManifestOf(b.manifest.value);
            Path(k, a, AddingFinalizer(0, ManifestOf(a.manifest.value)), b, if answered then Ensuring(0, m) else Idle)
  {
    var m0, m := ManifestOf(a.manifest.value), ManifestOf(b.manifest.value);
    var p, q := AddingFinalizer(0, m0), if answered then Ensuring(0, m) else Idle;
    hide Mirrors, Onward;
    forall s | Mirrors(s, k, a, p) ensures Onward(s, k, b, q) {
      Standing(s, k, a, p);
      var at := s.slots[k].pc.at;
      var pc := if answered then Ensuring(at + 1, m) else Idle;
      var t := Goto(Append(s, k, Present(m)), k, pc);
      assert EnsureStep(s, AddFinalizer(k, answered), t);
      Appends(s, k, a, p, b, q, t, pc);
      EnsureStepped(s, k, AddFinalizer(k, answered), t, b, q);
    }
  }

  lemma LooksUp(k: Key, a: Side, m: Manifest, found: Option<Uuid>)
    requires found.Some? ==>
      found.value in a.lbs && HasTag(a.lbs[found.value], CREATION, m.uid) && a.lbs[found.value].name == CloudName(k)
    requires found.None? ==> forall id :: id in a.lbs && HasTag(a.lbs[id], CREATION, m.uid) ==>
      a.lbs[id].name != CloudName(k)
    ensures Path(k, a, LookingUp(0, m), a, if found.Some? then Ensured(0, m, found.value,
        a.lbs[found.value]) else Creating(0, m))
  {
    var p := LookingUp(0, m);
    var q := if found.Some? then Ensured(0, m, found.value, a.lbs[found.value]) else Creating(0, m);
    hide Mirrors, Onward;
    forall s | Mirrors(s, k, a, p) ensures Onward(s, k, a, q) {
      Standing(s, k, a, p);
      var at := s.slots[k].pc.at;
      var t := Goto(s, k, if found.Some? then Ensured(at, m, found.value, s.lbs[found.value]) else Creating(at, m));
      assert EnsureStep(s, LookUp(k, found), t);
      Moved(s, k, a, p, a, q, t, t.slots[k].pc);
      EnsureStepped(s, k, LookUp(k, found), t, a, q);
    }
  }

  lemma Creates(k: Key, a: Side, b: Side, m: Manifest, id: Uuid, answered: bool)
    requires id !in a.minted && id != "" && id in b.lbs && b.lbs == a.lbs[id := b.lbs[id]] && b.manifest == a.manifest
    requires a.minted + {id} <= b.minted
    requires b.lbs[id].name == CloudName(k) && b.lbs[id].tags == CreationTags(m.uid) &&
      (m.zone != "" ==> b.lbs[id].zone == m.zone)
    ensures Path(k, a, Creating(0, m), b, if answered then Ensured(0, m, id, b.lbs[id]) else Idle)
  {
    var p, q, row := Creating(0, m), if answered then Ensured(0, m, id, b.lbs[id]) else Idle, b.lbs[id];
    hide Mirrors, Onward;
    forall s | Mirrors(s, k, a, p) ensures Onward(s, k, b, q) {
      Standing(s, k, a, p);
      var at := s.slots[k].pc.at;
      var t := Goto(s, k, if answered then Ensured(at, m, id, row) else Idle)
               .(lbs := s.lbs[id := row], minted := s.minted + {id}, origin := s.origin[id := m.uid]);
      assert EnsureStep(s, CreateLb(k, id, row, answered), t);
      Moved(s, k, a, p, b, q, t, t.slots[k].pc);
      EnsureStepped(s, k, CreateLb(k, id, row, answered), t, b, q);
    }
  }

  /** Where a worker stands after fetching the recorded load balancer. */
  function Fetched(at: nat, m: Manifest, row: CloudLb): Pc {
    if HasTag(row, MANAGED, "true") then Ensured(at, m, m.uuid, row)
    else if Adoptable(m, row) then Adopting(at, m, row.tags[MANAGED := "true"][ADOPTED := "true"])
    else Idle
  }

  lemma Fetches(k: Key, a: Side, m: Manifest)
    requires m.uuid in a.lbs
    ensures Path(k, a, Fetching(0, m), a, Fetched(0, m, a.lbs[m.uuid]))
  {
    var p, row := Fetching(0, m), a.lbs[m.uuid];
    var q := Fetched(0, m, row);
    hide Mirrors, Onward;
    forall s | Mirrors(s, k, a, p) ensures Onward(s, k, a, q) {
      Standing(s, k, a, p);
      var at := s.slots[k].pc.at;
      var t := Goto(s, k, Fetched(at, m, row));
      assert EnsureStep(s, FetchLb(k), t);
      Moved(s, k, a, p, a, q, t, t.slots[k].pc);
      EnsureStepped(s, k, FetchLb(k), t, a, q);
    }
  }

  lemma Adopts(k: Key, a: Side, b: Side, m: Manifest, tags: map<string, string>, answered: bool)
    requires m.uuid in a.lbs && b == a.(lbs := a.lbs[m.uuid := a.lbs[m.uuid].(tags := tags)])
    ensures Path(k, a, Adopting(0, m, tags), b, if answered then Ensured(0, m, m.uuid, b.lbs[m.uuid]) else Idle)
  {
    var p, row := Adopting(0, m, tags), b.lbs[m.uuid];
    var q := if answered then Ensured(0, m, m.uuid, row) else Idle;
    hide Mirrors, Onward;
    forall s | Mirrors(s, k, a, p) ensures Onward(s, k, b, q) {
      Standing(s, k, a, p);
      var at := s.slots[k].pc.at;
      var t := Goto(s, k, if answered then Ensured(at, m, m.uuid, row) else Idle).(lbs := s.lbs[m.uuid := row]);
      assert EnsureStep(s, AdoptLb(k, answered), t);
      Moved(s, k, a, p, b, q, t, t.slots[k].pc);
      EnsureStepped(s, k, AdoptLb(k, answered), t, b, q);
    }
  }

  lemma Records(k: Key, a: Side, b: Side, m: Manifest, id: Uuid, zone: string)
    requires a.manifest.Some? && b.manifest.Some? && a.lbs == b.lbs && a.minted == b.minted
    requires ManifestOf(b.manifest.value) == m.(uuid := id, zone := zone)
    ensures Path(k, a, Recording(0, m, id, zone), b, Idle)
  {
    var p := Recording(0, m, id, zone);
    hide Mirrors, Onward;
    forall s | Mirrors(s, k, a, p) ensures Onward(s, k, b, Idle) {
      Standing(s, k, a, p);
      var t := Goto(Append(s, k, Present(m.(uuid := id, zone := zone))), k,
                    Idle).(records := s.records + {(m.uid, id)});
      assert EnsureStep(s, Record(k, true), t);
      Appends(s, k, a, p, b, Idle, t, Idle);
      EnsureStepped(s, k, Record(k, true), t, b, Idle);
    }
  }

  lemma RecordsZone(k: Key, a: Side, b: Side, m: Manifest, zone: string)
    requires a.manifest.Some? && b.manifest.Some? && a.lbs == b.lbs && a.minted == b.minted
    requires ManifestOf(b.manifest.value) == m.(zone := zone)
    ensures Path(k, a, RecordingZone(0, m, zone), b, Idle)
  {
    var p := RecordingZone(0, m, zone);
    hide Mirrors, Onward;
    forall s | Mirrors(s, k, a, p) ensures Onward(s, k, b, Idle) {
      Standing(s, k, a, p);
      var t := Goto(Append(s, k, Present(m.(zone := zone))), k, Idle);
      assert EnsureStep(s, RecordZone(k, true), t);
      Appends(s, k, a, p, b, Idle, t, Idle);
      EnsureStepped(s, k, RecordZone(k, true), t, b, Idle);
    }
  }

  // ---------------------------------------------------------------- the cleanup

  lemma DeletesNamed(k: Key, a: Side, b: Side, m: Manifest, answered: bool)
    requires m.uuid in a.lbs && b == a.(lbs := a.lbs - {m.uuid})
    ensures Path(k, a, DeletingNamed(0, m), b, if answered then Sweeping(0, m) else Idle)
  {
    var p, q := DeletingNamed(0, m), if answered then Sweeping(0, m) else Idle;
    hide Mirrors, Onward;
    forall s | Mirrors(s, k, a, p) ensures Onward(s, k, b, q) {
      Standing(s, k, a, p);
      var at := s.slots[k].pc.at;
      var t := Goto(s, k, if answered then Sweeping(at, m) else Idle).(lbs := s.lbs - {m.uuid});
      assert CleanupStep(AsWritten, s, DeleteNamed(k, answered), t);
      Moved(s, k, a, p, b, q, t, t.slots[k].pc);
      CleanupStepped(s, k, DeleteNamed(k, answered), t, b, q);
    }
  }

  lemma MissesNamed(k: Key, a: Side, m: Manifest)
    requires m.uuid !in a.lbs
    ensures Path(k, a, DeletingNamed(0, m), a, RemovingFinalizer(0, m))
  {
    var p, q := DeletingNamed(0, m), RemovingFinalizer(0, m);
    hide Mirrors, Onward;
    forall s | Mirrors(s, k, a, p) ensures Onward(s, k, a, q) {
      Standing(s, k, a, p);
      var t := Goto(s, k, RemovingFinalizer(s.slots[k].pc.at, m));
      assert CleanupStep(AsWritten, s, NamedMissing(k), t);
      Moved(s, k, a, p, a, q, t, t.slots[k].pc);
      CleanupStepped(s, k, NamedMissing(k), t, a, q);
    }
  }

  lemma Sweeps(k: Key, a: Side, m: Manifest, todo: seq<Uuid>)
    requires forall id :: id in todo <==>
      id in a.lbs && SweepFilter(AsWritten, a.lbs[id], m.uid) && a.lbs[id].name == CloudName(k)
    ensures Path(k, a, Sweeping(0, m), a, Purging(0, m, todo))
  {
    var p, q := Sweeping(0, m), Purging(0, m, todo);
    hide Mirrors, Onward;
    forall s | Mirrors(s, k, a, p) ensures Onward(s, k, a, q) {
      Standing(s, k, a, p);
      var t := Goto(s, k, Purging(s.slots[k].pc.at, m, todo));
      assert CleanupStep(AsWritten, s, Sweep(k, todo), t);
      Moved(s, k, a, p, a, q, t, t.slots[k].pc);
      CleanupStepped(s, k, Sweep(k, todo), t, a, q);
    }
  }

  lemma Purges(k: Key, a: Side, b: Side, m: Manifest, todo: seq<Uuid>, answered: bool)
    requires todo != [] && todo[0] in a.lbs && b == a.(lbs := a.lbs - {todo[0]})
    ensures Path(k, a, Purging(0, m, todo), b, if answered then Purging(0, m, todo[1..]) else Idle)
  {
    var p, q := Purging(0, m, todo), if answered then Purging(0, m, todo[1..]) else Idle;
    hide Mirrors, Onward;
    forall s | Mirrors(s, k, a, p) ensures Onward(s, k, b, q) {
      Standing(s, k, a, p);
      var at := s.slots[k].pc.at;
      var t := Goto(s, k, if answered then Purging(at, m, todo[1..]) else Idle).(lbs := s.lbs - {todo[0]});
      assert CleanupStep(AsWritten, s, Purge(k, answered), t);
      Moved(s, k, a, p, b, q, t, t.slots[k].pc);
      CleanupStepped(s, k, Purge(k, answered), t, b, q);
    }
  }

  lemma Purged(k: Key, a: Side, m: Manifest)
    ensures Path(k, a, Purging(0, m, []), a, RemovingFinalizer(0, m))
  {
    var p, q := Purging(0, m, []), RemovingFinalizer(0, m);
    hide Mirrors, Onward;
    forall s | Mirrors(s, k, a, p) ensures Onward(s, k, a, q) {
      Standing(s, k, a, p);
      var t := Goto(s, k, RemovingFinalizer(s.slots[k].pc.at, m));
      assert CleanupStep(AsWritten, s, PurgeDone(k), t);
      Moved(s, k, a, p, a, q, t, t.slots[k].pc);
      CleanupStepped(s, k, PurgeDone(k), t, a, q);
    }
  }

  lemma TakesOffFinalizer(k: Key, a: Side, b: Side, m: Manifest)
    requires b.manifest.Some? && ManifestOf(b.manifest.value) == m.(finalizer := false) && b.lbs == a.lbs &&
      b.minted == a.minted
    ensures Path(k, a, RemovingFinalizer(0, m), b, Idle)
  {
    var p := RemovingFinalizer(0, m);
    hide Mirrors, Onward;
    forall s | Mirrors(s, k, a, p) ensures Onward(s, k, b, Idle) {
      Standing(s, k, a, p);
      var t := Goto(Append(s, k, Present(m.(finalizer := false))), k, Idle);
      assert CleanupStep(AsWritten, s, RemoveFinalizer(k, true), t);
      Appends(s, k, a, p, b, Idle, t, Idle);
      CleanupStepped(s, k, RemoveFinalizer(k, true), t, b, Idle);
    }
  }

  /** An object being deleted vanishes with its last finalizer. */
  lemma Vanishes(k: Key, a: Side)
    requires a.manifest.Some? && a.manifest.value.deleting && !a.manifest.value.finalizer
    ensures Path(k, a, Idle, a.(manifest := None), Idle)
  {
    var b := a.(manifest := None);
    forall s | Mirrors(s, k, a, Idle) ensures Onward(s, k, b, Idle) {
      var t := Append(s, k, Absent);
      assert UserStep(s, Vanish(k), t);
      assert Mirrors(t, k, b, Idle);
      Stepped(s, k, Vanish(k), t, b, Idle);
    }
  }

  lemma RemovesFinalizer(k: Key, a: Side, lb: LoadBalancer)
    requires lb.deleting && a.manifest == Some(lb)
    ensures Path(k, a, RemovingFinalizer(0, ManifestOf(lb)), a.(manifest := None), Idle)
  {
    var b := a.(manifest := Some(lb.(finalizer := false)));
    hide Path;
    TakesOffFinalizer(k, a, b, ManifestOf(lb));
    Vanishes(k, b);
    PathChain(k, a, RemovingFinalizer(0, ManifestOf(lb)), b, Idle, a.(manifest := None), Idle);
  }

  // ---------------------------------------------------------------- what follows

  lemma {:induction false} ReachWalk(s: System, states: seq<System>, actions: seq<Action>)
    requires Reachable(AsWritten, s) && Linked(states, actions) && states[0] == s
    ensures Reachable(AsWritten, states[|actions|])
    decreases |actions|
  {
    hide Reachable, Next;
    if actions != [] {
      var n := |actions| - 1;
      ReachWalk(s, states[..n + 1], actions[..n]);
      ReachNext(AsWritten, states[n], actions[n], states[n + 1]);
    }
  }

  /** Whatever holds of the machine holds of the stores after a method that follows it: the state it leaves is mirrored
      by a reachable one. */
  lemma StaysReachable(k: Key, a: Side, p: Pc, b: Side, q: Pc, s: System) returns (t: System)
    requires Path(k, a, p, b, q) && Mirrors(s, k, a, p) && Reachable(AsWritten, s)
    ensures Reachable(AsWritten, t) && Mirrors(t, k, b, q)
  {
    hide Mirrors, Reachable, Next;
    t :| Walk(s, t) && Mirrors(t, k, b, q);
    var states, actions :| Linked(states, actions) && states[0] == s && states[|actions|] == t;
    ReachWalk(s, states, actions);
  }

  /** For one: at most one load balancer per object, also after any call of the methods. */
  lemma OnePerObject(k: Key, a: Side, p: Pc, b: Side, q: Pc, s: System, i: Uuid, j: Uuid, uid: Uid)
    requires Path(k, a, p, b, q) && Mirrors(s, k, a, p) && Reachable(AsWritten, s)
    requires i in b.lbs && HasTag(b.lbs[i], CREATION, uid) && j in b.lbs && HasTag(b.lbs[j], CREATION, uid)
    ensures i == j
  {
    hide Path, Next;
    var t := StaysReachable(k, a, p, b, q, s);
    var states, actions :| Run(AsWritten, states, actions) && states[|actions|] == t;
    AtMostOneLoadBalancer(AsWritten, states, actions, |actions|, i, j, uid);
  }
}
