/** What the lifecycle invariant means for whole runs, and where the code as written falls short of it. */
module LifecycleTheorems {
  import opened Api
  import opened Lifecycle
  import opened LifecycleProof

  /** At most one load balancer per object: two load balancers with the same creation tag are the
      same one, in every state of every run, under either cleanup. */
  lemma AtMostOneLoadBalancer(v: Cleanup, states: seq<System>, actions: seq<Action>, n: nat, i: Uuid, j: Uuid, uid: Uid)
    requires Run(v, states, actions) && n < |states|
    requires i in states[n].lbs && HasTag(states[n].lbs[i], CREATION, uid)
    requires j in states[n].lbs && HasTag(states[n].lbs[j], CREATION, uid)
    ensures i == j
    ensures uid in states[n].owners && states[n].lbs[i].name == CloudName(states[n].owners[uid])
  {
    RunOk(v, states, actions, n);
    assert LbOk(states[n], i);
    assert Tagged(states[n], i) && Tagged(states[n], j);
  }

  /** Every UUID a worker wrote into a manifest is that of a load balancer created for that very object. */
  lemma RecordedIsOwn(v: Cleanup, states: seq<System>, actions: seq<Action>, n: nat, uid: Uid, id: Uuid)
    requires Run(v, states, actions) && n < |states| && (uid, id) in states[n].records
    ensures id != "" && id in states[n].origin && states[n].origin[id] == uid
  {
    RunOk(v, states, actions, n);
    assert RecordsOk(states[n]);
  }

  /** The child phase is never entered without a UUID, nor for an object that lost its finalizer. */
  lemma ChildrenHaveUuid(v: Cleanup, states: seq<System>, actions: seq<Action>, n: nat, k: Key)
    requires Run(v, states, actions) && n < |states| && k in states[n].slots
    requires states[n].slots[k].pc.Children?
    ensures var m := states[n].slots[k].pc.m; m.uuid != "" && Holds(states[n].slots[k].history, m.uid)
  {
    RunOk(v, states, actions, n);
    assert KeyOk(v, states[n], k);
  }

  /** With the intended cleanup, a load balancer carrying an object's creation tag exists only while
      that object is in the store with the finalizer on; so a deleted object leaves no orphan. */
  lemma NoOrphan(states: seq<System>, actions: seq<Action>, n: nat, id: Uuid, uid: Uid)
    requires Run(Intended, states, actions) && n < |states|
    requires id in states[n].lbs && HasTag(states[n].lbs[id], CREATION, uid)
    ensures uid in states[n].owners && states[n].owners[uid] in states[n].slots
    ensures Holds(states[n].slots[states[n].owners[uid]].history, uid)
  {
    RunOk(Intended, states, actions, n);
    assert Tagged(states[n], id);
  }

  // ---------------------------------------------------------------- the cleanup as written

  /** The filter as written selects a load balancer as the controller creates it exactly when the UID
      in the filter is the literal string "true"; the intended filter selects it exactly for its own UID. */
  lemma FilterOnCreated(uid: Uid, u: Uid, lb: CloudLb)
    requires lb.tags == CreationTags(uid)
    ensures SweepFilter(AsWritten, lb, u) <==> u == "true"
    ensures SweepFilter(Intended, lb, u) <==> u == uid
  {
    assert |MANAGED| != |CREATION|;
  }

  /** The load balancers left by an undisturbed, successful `cleanupLoadBalancer`. */
  ghost function AfterCleanup(v: Cleanup, lbs: map<Uuid, CloudLb>, k: Key, m: Manifest): map<Uuid, CloudLb> {
    if v == AsWritten && m.uuid != "" && m.uuid !in lbs then lbs
    else Swept(v, lbs - {m.uuid}, k, m)
  }

  ghost function Swept(v: Cleanup, lbs: map<Uuid, CloudLb>, k: Key, m: Manifest): map<Uuid, CloudLb> {
    map id | id in lbs && !(SweepFilter(v, lbs[id], m.uid) && lbs[id].name == CloudName(k)) :: lbs[id]
  }

  /** Load balancers as the controller creates them: tagged for an owner and named after its key. */
  ghost predicate Created(lbs: map<Uuid, CloudLb>, uid: Uid, k: Key) {
    && "" !in lbs && uid != "true"
    && (forall id :: id in lbs && HasTag(lbs[id], CREATION, uid) ==>
          lbs[id].tags == CreationTags(uid) && lbs[id].name == CloudName(k))
  }

  /** The cleanup as written leaves no load balancer of the object behind exactly when every one it
      has is the one named in the manifest; the intended cleanup never leaves one behind. */
  lemma CleanupComplete(lbs: map<Uuid, CloudLb>, k: Key, m: Manifest)
    requires Created(lbs, m.uid, k)
    ensures NoneTagged(AfterCleanup(Intended, lbs, k, m), m.uid)
    ensures NoneTagged(AfterCleanup(AsWritten, lbs, k, m), m.uid)
            <==> forall id :: id in lbs && HasTag(lbs[id], CREATION, m.uid) ==> id == m.uuid
  {
    var rest := AfterCleanup(AsWritten, lbs, k, m);
    forall id | id in lbs && HasTag(lbs[id], CREATION, m.uid)
      ensures SweepFilter(Intended, lbs[id], m.uid)
      ensures id in rest <==> id != m.uuid
      ensures id in rest ==> rest[id] == lbs[id]
    {
      FilterOnCreated(m.uid, m.uid, lbs[id]);
    }
  }

  ghost predicate CleanupOf(a: Action, k: Key) {
    match a
    case DeleteNamed(j, answered) => j == k && answered
    case NamedMissing(j) => j == k
    case Sweep(j, _) => j == k
    case Purge(j, answered) => j == k && answered
    case PurgeDone(j) => j == k
    case _ => false
  }

  /** A stretch of a run in which only the worker of `k` acts, cleaning up and being answered. */
  ghost predicate QuietCleanup(v: Cleanup, states: seq<System>, actions: seq<Action>, k: Key) {
    && |states| == |actions| + 1
    && (forall i :: 0 <= i < |actions| ==> CleanupOf(actions[i], k) && Next(v, states[i], actions[i], states[i + 1]))
  }

  /** What is still to be deleted from where the worker stands. */
  ghost function Remaining(v: Cleanup, s: System, k: Key): map<Uuid, CloudLb>
    requires Known(s, k)
  {
    match s.slots[k].pc
    case DeletingNamed(_, m) => AfterCleanup(v, s.lbs, k, m)
    case Sweeping(_, m) => Swept(v, s.lbs, k, m)
    case Purging(_, m, todo) => s.lbs - (set id | id in todo)
    case _ => s.lbs
  }

  lemma CleanupProgress(v: Cleanup, s: System, a: Action, s': System, k: Key)
    requires CleanupOf(a, k) && Next(v, s, a, s')
    requires s.slots[k].pc.DeletingNamed? ==> s.slots[k].pc.m.uuid != ""
    ensures Known(s', k) && Remaining(v, s', k) == Remaining(v, s, k)
    ensures !s'.slots[k].pc.DeletingNamed?
  {
    assert CleanupStep(v, s, a, s');
    hide Next;
    if a.Purge? {
      hide Remaining, CleanupStep;
      PurgeProgress(v, s, a.answered, s', k);
    } else if a.Sweep? || a.PurgeDone? {
      SweepProgress(v, s, a, s', k);
    } else {
      NamedProgress(v, s, a, s', k);
    }
  }

  lemma SweepProgress(v: Cleanup, s: System, a: Action, s': System, k: Key)
    requires (a.Sweep? || a.PurgeDone?) && a.k == k && Known(s, k) && CleanupStep(v, s, a, s')
    ensures Known(s', k) && Remaining(v, s', k) == Remaining(v, s, k) && !s'.slots[k].pc.DeletingNamed?
  {
    assert Remaining(v, s', k).Keys == Remaining(v, s, k).Keys;
  }

  lemma NamedProgress(v: Cleanup, s: System, a: Action, s': System, k: Key)
    requires (a == DeleteNamed(k, true) || a == NamedMissing(k)) && Known(s, k) && CleanupStep(v, s, a, s')
    requires s.slots[k].pc.m.uuid != ""
    ensures Known(s', k) && Remaining(v, s', k) == Remaining(v, s, k) && !s'.slots[k].pc.DeletingNamed?
  {
  }

  lemma PurgeProgress(v: Cleanup, s: System, answered: bool, s': System, k: Key)
    requires answered && Known(s, k) && CleanupStep(v, s, Purge(k, answered), s')
    ensures Known(s', k) && Remaining(v, s', k) == Remaining(v, s, k) && s'.slots[k].pc.Purging?
  {
    var todo := s.slots[k].pc.todo;
    assert forall id :: id in todo <==> id == todo[0] || id in todo[1..];
    assert Remaining(v, s', k).Keys == Remaining(v, s, k).Keys;
  }

  /** `AfterCleanup` is what the calls of an undisturbed cleanup add up to. */
  lemma {:induction false} CleanupEffect(v: Cleanup, states: seq<System>, actions: seq<Action>, k: Key)
    requires QuietCleanup(v, states, actions, k) && Known(states[0], k)
    requires states[0].slots[k].pc.DeletingNamed? ==> states[0].slots[k].pc.m.uuid != ""
    ensures Known(states[|actions|], k) && Remaining(v, states[|actions|], k) == Remaining(v, states[0], k)
    decreases |actions|
  {
    if actions != [] {
      CleanupProgress(v, states[0], actions[0], states[1], k);
      CleanupEffect(v, states[1..], actions[1..], k);
    }
  }

  ghost predicate Reachable(v: Cleanup, s: System) {
    exists states, actions :: Run(v, states, actions) && states[|actions|] == s
  }

  lemma ReachInit(v: Cleanup, s: System)
    requires Init(s)
    ensures Reachable(v, s)
  {
    assert Run(v, [s], []) && [s][0] == s;
  }

  lemma ReachNext(v: Cleanup, s: System, a: Action, s': System)
    requires Reachable(v, s) && Next(v, s, a, s')
    ensures Reachable(v, s')
  {
    var states, actions :| Run(v, states, actions) && states[|actions|] == s;
    var states', actions' := states + [s'], actions + [a];
    assert Run(v, states', actions') && states'[|actions'|] == s';
  }

  /** A user creates an object and its worker puts the finalizer on. */
  lemma FinalizerReached(k: Key, m: Manifest) returns (s: System)
    requires !m.finalizer && !m.deleting && m.uuid == ""
    ensures Reachable(AsWritten, s) && s.slots.Keys == {k} && s.lbs == map[] && s.minted == {} &&
      s.owners == map[m.uid := k]
    ensures var m1 := m.(finalizer := true);
            s.slots[k] == Slot([Absent, Present(m), Present(m1)], 1, LookingUp(2, m1))
  {
    hide Reachable;
    var m1 := m.(finalizer := true);
    var s0 := System(map[k := Slot([Absent], 0, Idle)], map[], map[], map[], {}, {});
    ReachInit(AsWritten, s0);
    var s1 := Append(s0, k, Present(m)).(owners := map[m.uid := k]);
    ReachNext(AsWritten, s0, UserCreate(k, m), s1);
    var s2 := s1.(slots := s1.slots[k := s1.slots[k].(seen := 1, pc := AddingFinalizer(1, m))]);
    ReachNext(AsWritten, s1, Read(k, 1), s2);
    s := Goto(Append(s2, k, Present(m1)), k, LookingUp(2, m1));
    ReachNext(AsWritten, s2, AddFinalizer(k, true), s);
  }

  /** The worker creates the load balancer but loses the answer, and the user deletes the object. */
  lemma LostAnswerReached(k: Key, m: Manifest, id: Uuid, lb: CloudLb) returns (s: System)
    requires id != "" && !m.finalizer && !m.deleting && m.uuid == "" && m.zone == lb.zone
    requires lb.name == CloudName(k) && lb.tags == CreationTags(m.uid)
    ensures Reachable(AsWritten, s) && k in s.slots && s.lbs == map[id := lb] && s.owners == map[m.uid := k]
    ensures |s.slots[k].history| == 4 && s.slots[k].seen == 1 && s.slots[k].pc == Idle
    ensures s.slots[k].history[3] == Present(m.(finalizer := true, deleting := true))
  {
    hide Reachable;
    var m1 := m.(finalizer := true);
    var s0 := FinalizerReached(k, m);
    var s1 := Goto(s0, k, Creating(2, m1));
    ReachNext(AsWritten, s0, LookUp(k, None), s1);
    var s2 := Goto(s1, k, Idle).(lbs := s1.lbs[id := lb], minted := s1.minted + {id}, origin := s1.origin[id := m.uid]);
    ReachNext(AsWritten, s1, CreateLb(k, id, lb, false), s2);
    s := Append(s2, k, Present(m1.(deleting := true)));
    ReachNext(AsWritten, s2, UserDelete(k), s);
  }

  /** The code as written reaches an orphan: the object is gone, its load balancer is not, because the
      sweep with the managed tag found nothing to delete. */
  lemma OrphanReachable(k: Key, uid: Uid, id: Uuid) returns (s: System)
    requires id != "" && uid != "true"
    ensures Reachable(AsWritten, s)
    ensures k in s.slots && s.slots[k].history != [] && Last(s.slots[k].history) == Absent
    ensures id in s.lbs && HasTag(s.lbs[id], CREATION, uid) && uid in s.owners && s.owners[uid] == k
  {
    hide Reachable;
    var m := Manifest(uid, true, true, "", "lpg1", false);
    var lb := CloudLb(CloudName(k), CreationTags(uid), "lpg1", FLAVOR, "changing", []);
    FilterOnCreated(uid, uid, lb);
    var s0 := LostAnswerReached(k, m.(finalizer := false, deleting := false), id, lb);
    var s1 := s0.(slots := s0.slots[k := s0.slots[k].(seen := 3, pc := Sweeping(3, m))]);
    ReachNext(AsWritten, s0, Read(k, 3), s1);
    var s2 := Goto(s1, k, Purging(3, m, []));
    ReachNext(AsWritten, s1, Sweep(k, []), s2);
    s := FinalizerDropped(k, s2, m);
  }

  lemma FinalizerDropped(k: Key, s0: System, m: Manifest) returns (s: System)
    requires Reachable(AsWritten, s0) && k in s0.slots && m.deleting
    requires |s0.slots[k].history| == 4 && s0.slots[k].pc == Purging(3, m, [])
    ensures Reachable(AsWritten, s) && s.lbs == s0.lbs && s.owners == s0.owners
    ensures k in s.slots && s.slots[k].history != [] && Last(s.slots[k].history) == Absent
  {
    hide Reachable;
    var s1 := Goto(s0, k, RemovingFinalizer(3, m));
    ReachNext(AsWritten, s0, PurgeDone(k), s1);
    var s2 := Goto(Append(s1, k, Present(m.(finalizer := false))), k, Idle);
    ReachNext(AsWritten, s1, RemoveFinalizer(k, true), s2);
    s := Append(s2, k, Absent);
    ReachNext(AsWritten, s2, Vanish(k), s);
  }
}
