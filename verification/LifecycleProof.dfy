/** Invariants of the lifecycle protocol, kept by every step of every run. */
module LifecycleProof {
  import opened Api
  import opened Lifecycle

  /** The object with this UID is the current one of its key and carries the finalizer. */
  ghost predicate Holds(h: seq<Version>, uid: Uid) {
    h != [] && Last(h).Present? && Last(h).m.uid == uid && Last(h).m.finalizer
  }

  ghost predicate NoneTagged(lbs: map<Uuid, CloudLb>, uid: Uid) {
    forall id :: id in lbs ==> !HasTag(lbs[id], CREATION, uid)
  }

  /** Everything a worker can still read as alive and finalized really is held by the finalizer. */
  ghost predicate ReadsHold(h: seq<Version>, seen: nat) {
    forall i :: seen <= i < |h| && h[i].Present? && h[i].m.finalizer && !h[i].m.deleting ==> Holds(h, h[i].m.uid)
  }

  ghost predicate Owned(h: seq<Version>, owners: map<Uid, Key>, k: Key) {
    forall i :: 0 <= i < |h| && h[i].Present? ==> h[i].m.uid in owners && owners[h[i].m.uid] == k
  }

  /** The worker's copy is the version it claims to be. */
  ghost predicate Copy(h: seq<Version>, at: nat, m: Manifest) {
    at < |h| && h[at] == Present(m)
  }

  ghost predicate Alive(h: seq<Version>, at: nat, m: Manifest) {
    Copy(h, at, m) && m.finalizer && !m.deleting && Holds(h, m.uid)
  }

  ghost predicate Dying(h: seq<Version>, at: nat, m: Manifest, seen: nat) {
    Copy(h, at, m) && m.finalizer && m.deleting && at == seen
  }

  ghost predicate SameCreationTag(a: map<string, string>, b: map<string, string>) {
    && (CREATION in a <==> CREATION in b)
    && (CREATION in a ==> a[CREATION] == b[CREATION])
  }

  ghost predicate PcOk(v: Cleanup, w: Slot, s: System) {
    var h, lbs := w.history, s.lbs;
    match w.pc
    case Idle => true
    case AddingFinalizer(at, m) => Copy(h, at, m) && !m.finalizer && !m.deleting
    case LookingUp(at, m) => Alive(h, at, m) && m.uuid == ""
    case Creating(at, m) => Alive(h, at, m) && m.uuid == "" && NoneTagged(lbs, m.uid)
    case Fetching(at, m) => Alive(h, at, m) && m.uuid != ""
    case Adopting(at, m, tags) =>
      && Alive(h, at, m) && m.uuid != "" && m.uuid in s.minted
      && (m.uuid in lbs ==> SameCreationTag(lbs[m.uuid].tags, tags))
    case Recording(at, m, id, _) => Alive(h, at, m) && m.uuid == "" && id in s.origin && s.origin[id] == m.uid
    case RecordingZone(at, m, _) => Alive(h, at, m) && m.uuid != ""
    case Children(at, m) => Alive(h, at, m) && m.uuid != ""
    case DeletingNamed(at, m) => Dying(h, at, m, w.seen)
    case Sweeping(at, m) => Dying(h, at, m, w.seen)
    case Purging(at, m, todo) =>
      && Dying(h, at, m, w.seen)
      && (v == Intended ==> forall id :: id in lbs && HasTag(lbs[id], CREATION, m.uid) ==> id in todo)
    case RemovingFinalizer(at, m) =>
      Dying(h, at, m, w.seen) && (v == Intended ==> NoneTagged(lbs, m.uid))
  }

  ghost predicate KeyOk(v: Cleanup, s: System, k: Key) {
    && Known(s, k)
    && var w := s.slots[k];
       && w.seen < |w.history|
       && Owned(w.history, s.owners, k)
       && ReadsHold(w.history, w.seen)
       && PcOk(v, w, s)
  }

  /** A load balancer carrying a creation tag was created by the worker of the tag's owner. */
  ghost predicate Tagged(s: System, id: Uuid) {
    id in s.lbs && CREATION in s.lbs[id].tags
  }

  ghost predicate LbOk(s: System, id: Uuid) {
    Tagged(s, id) ==>
      var uid := s.lbs[id].tags[CREATION];
      && uid in s.owners && s.lbs[id].name == CloudName(s.owners[uid])
      && id in s.origin && s.origin[id] == uid
  }

  /** At most one load balancer exists per creation tag. */
  ghost predicate Unique(s: System) {
    forall i, j :: Tagged(s, i) && Tagged(s, j) && s.lbs[i].tags[CREATION] == s.lbs[j].tags[CREATION] ==> i == j
  }

  /** A load balancer carrying an object's creation tag exists only while the object holds the finalizer. */
  ghost predicate Safe(s: System) {
    forall id :: Tagged(s, id) ==>
      var uid := s.lbs[id].tags[CREATION];
      uid in s.owners && s.owners[uid] in s.slots && Holds(s.slots[s.owners[uid]].history, uid)
  }

  /** Every UUID a worker recorded in a manifest is that of a load balancer it created for that object. */
  ghost predicate RecordsOk(s: System) {
    forall r :: r in s.records ==> r.1 in s.origin && s.origin[r.1] == r.0
  }

  ghost predicate KeysOk(v: Cleanup, s: System) {
    forall k :: k in s.slots ==> KeyOk(v, s, k)
  }

  ghost predicate LbsOk(s: System) {
    forall id :: id in s.lbs ==> LbOk(s, id)
  }

  /** Identifiers in use have been handed out, and owners are known keys. */
  ghost predicate IdsOk(s: System) {
    && s.lbs.Keys <= s.minted && s.origin.Keys <= s.minted && "" !in s.minted
    && (forall uid :: uid in s.owners ==> s.owners[uid] in s.slots)
  }

  ghost predicate Inv(v: Cleanup, s: System) {
    KeysOk(v, s) && LbsOk(s) && IdsOk(s) && Unique(s) && RecordsOk(s) && (v == Intended ==> Safe(s))
  }

  lemma InitOk(v: Cleanup, s: System)
    requires Init(s)
    ensures Inv(v, s)
  {
  }

  // ---------------------------------------------------------------- frames

  /** No load balancer gains the creation tag of this UID. */
  ghost predicate Shrinks(lbs: map<Uuid, CloudLb>, lbs': map<Uuid, CloudLb>, uid: Uid) {
    forall id :: id in lbs' && HasTag(lbs'[id], CREATION, uid) ==> id in lbs && HasTag(lbs[id], CREATION, uid)
  }

  /** What every step keeps of the cloud and of the bookkeeping: identifiers are never handed out
      twice, and creation tags, owners and origins never change. */
  ghost predicate Grows(s: System, s': System) {
    && (forall uid :: uid in s.owners ==> uid in s'.owners && s'.owners[uid] == s.owners[uid])
    && (forall id :: id in s.origin ==> id in s'.origin && s'.origin[id] == s.origin[id])
    && s.minted <= s'.minted
    && (forall id :: id in s'.lbs && id in s.minted ==> id in s.lbs && SameCreationTag(s.lbs[id].tags, s'.lbs[id].tags))
  }

  /** The invariant of a key survives a step elsewhere that tags no load balancer for it. */
  lemma KeyFrame(v: Cleanup, s: System, s': System, k: Key)
    requires KeyOk(v, s, k) && Grows(s, s')
    requires k in s'.slots && s'.slots[k] == s.slots[k]
    requires forall uid :: uid in s.owners && s.owners[uid] == k ==> Shrinks(s.lbs, s'.lbs, uid)
    ensures KeyOk(v, s', k)
  {
    var w := s.slots[k];
    if w.pc.Creating? || w.pc.Purging? || w.pc.RemovingFinalizer? {
      assert w.history[w.pc.at] == Present(w.pc.m);
      assert Shrinks(s.lbs, s'.lbs, w.pc.m.uid);
    }
  }

  /** Only the slot of `k` changes, and no load balancer appears or changes its name or creation tag. */
  ghost predicate LocalTo(s: System, s': System, k: Key, w: Slot) {
    && k in s.slots && s'.slots == s.slots[k := w]
    && (forall uid :: uid in s.owners ==> uid in s'.owners && s'.owners[uid] == s.owners[uid])
    && s'.minted == s.minted && s'.origin == s.origin
    && (forall id :: id in s'.lbs ==>
          id in s.lbs && SameCreationTag(s.lbs[id].tags, s'.lbs[id].tags) && s'.lbs[id].name == s.lbs[id].name)
  }

  lemma LocalKeys(v: Cleanup, s: System, s': System, k: Key, w: Slot)
    requires KeysOk(v, s) && IdsOk(s) && LocalTo(s, s', k, w) && KeyOk(v, s', k)
    ensures KeysOk(v, s')
  {
    forall uid ensures Shrinks(s.lbs, s'.lbs, uid) {
    }
    forall j | j in s'.slots && j != k ensures KeyOk(v, s', j) {
      KeyFrame(v, s, s', j);
    }
  }

  lemma LocalLbs(s: System, s': System, k: Key, w: Slot)
    requires LbsOk(s) && Unique(s) && LocalTo(s, s', k, w)
    ensures LbsOk(s') && Unique(s')
  {
    forall id | Tagged(s', id) ensures LbOk(s', id) && Tagged(s, id) &&
      s.lbs[id].tags[CREATION] == s'.lbs[id].tags[CREATION] {
      assert LbOk(s, id);
    }
  }

  lemma LocalSafe(s: System, s': System, k: Key, w: Slot)
    requires Safe(s) && LocalTo(s, s', k, w)
    requires forall uid :: Holds(s.slots[k].history, uid) && !NoneTagged(s'.lbs, uid) ==> Holds(w.history, uid)
    ensures Safe(s')
  {
    forall id | Tagged(s', id)
      ensures var uid := s'.lbs[id].tags[CREATION];
              uid in s'.owners && s'.owners[uid] in s'.slots && Holds(s'.slots[s'.owners[uid]].history, uid)
    {
      assert Tagged(s, id);
      assert HasTag(s'.lbs[id], CREATION, s'.lbs[id].tags[CREATION]);
    }
  }

  /** A local step keeps the invariant if it keeps that of its key and takes the finalizer off no
      object that still has a tagged load balancer. */
  lemma LocalStep(v: Cleanup, s: System, s': System, k: Key, w: Slot)
    requires Inv(v, s) && LocalTo(s, s', k, w) && KeyOk(v, s', k)
    requires forall uid :: uid in s'.owners ==> s'.owners[uid] in s.slots
    requires RecordsOk(s')
    requires v == Intended ==> forall uid :: Holds(s.slots[k].history, uid) && !NoneTagged(s'.lbs, uid) ==>
      Holds(w.history, uid)
    ensures Inv(v, s')
  {
    LocalKeys(v, s, s', k, w);
    LocalLbs(s, s', k, w);
    if v == Intended {
      LocalSafe(s, s', k, w);
    }
  }

  // ---------------------------------------------------------------- steps

  /** Moving only the program counter keeps the invariant if the new position is justified. */
  lemma GotoOk(v: Cleanup, s: System, k: Key, pc: Pc)
    requires Inv(v, s) && Known(s, k)
    requires PcOk(v, s.slots[k].(pc := pc), s)
    ensures Inv(v, Goto(s, k, pc))
  {
    assert KeyOk(v, s, k);
    var w := s.slots[k].(pc := pc);
    LocalStep(v, s, Goto(s, k, pc), k, w);
  }

  /** A new version that keeps the object and its finalizer keeps what the worker relies on. */
  lemma Appended(h: seq<Version>, seen: nat, m: Manifest)
    requires h != [] && ReadsHold(h, seen) && Last(h).Present?
    requires m.uid == Last(h).m.uid && (Last(h).m.finalizer ==> m.finalizer)
    ensures ReadsHold(h + [Present(m)], seen)
    ensures forall uid :: Holds(h, uid) ==> Holds(h + [Present(m)], uid)
  {
  }

  /** Appending a version keeps the invariant of the key if it keeps what the worker relies on. */
  lemma KeyAppend(v: Cleanup, s: System, s': System, k: Key, x: Version)
    requires KeyOk(v, s, k) && k in s'.slots
    requires var w := s.slots[k]; s'.slots[k] == w.(history := w.history + [x]) && ReadsHold(w.history + [x], w.seen)
    requires forall uid :: Holds(s.slots[k].history, uid) ==> Holds(s.slots[k].history + [x], uid)
    requires s'.lbs == s.lbs && s'.minted == s.minted && s'.origin == s.origin
    requires forall uid :: uid in s.owners ==> uid in s'.owners && s'.owners[uid] == s.owners[uid]
    requires x.Present? ==> x.m.uid in s'.owners && s'.owners[x.m.uid] == k
    ensures KeyOk(v, s', k)
  {
    var h, h' := s.slots[k].history, s'.slots[k].history;
    assert forall i :: 0 <= i < |h| ==> h'[i] == h[i];
  }

  lemma AppendOk(v: Cleanup, s: System, k: Key, m: Manifest)
    requires Inv(v, s) && Known(s, k) && Last(s.slots[k].history).Present?
    requires var last := Last(s.slots[k].history).m; m.uid == last.uid && (last.finalizer ==> m.finalizer)
    ensures Inv(v, Append(s, k, Present(m)))
  {
    assert KeyOk(v, s, k);
    var w, s' := s.slots[k], Append(s, k, Present(m));
    Appended(w.history, w.seen, m);
    KeyAppend(v, s, s', k, Present(m));
    LocalStep(v, s, s', k, s'.slots[k]);
  }

  /** Creation and disappearance happen while no finalizer holds the key. */
  lemma ReplaceOk(v: Cleanup, s: System, k: Key, x: Version, s': System)
    requires Inv(v, s) && Known(s, k)
    requires Last(s.slots[k].history).Present? ==> !Last(s.slots[k].history).m.finalizer
    requires s'.slots == s.slots[k := s.slots[k].(history := s.slots[k].history + [x])]
    requires s'.lbs == s.lbs && s'.minted == s.minted && s'.origin == s.origin && s'.records == s.records
    requires forall uid :: uid in s.owners ==> uid in s'.owners && s'.owners[uid] == s.owners[uid]
    requires forall uid :: uid in s'.owners ==> uid in s.owners || s'.owners[uid] == k
    requires x.Present? ==> x.m.uid in s'.owners && s'.owners[x.m.uid] == k
    ensures Inv(v, s')
  {
    assert KeyOk(v, s, k);
    assert forall uid :: !Holds(s.slots[k].history, uid);
    KeyAppend(v, s, s', k, x);
    LocalStep(v, s, s', k, s'.slots[k]);
  }

  lemma UserCreateOk(v: Cleanup, s: System, k: Key, m: Manifest, s': System)
    requires Inv(v, s) && Known(s, k) && UserStep(s, UserCreate(k, m), s')
    ensures Inv(v, s')
  {
    ReplaceOk(v, s, k, Present(m), s');
  }

  lemma UserChangeOk(v: Cleanup, s: System, a: Action, s': System)
    requires Inv(v, s) && (a.UserEdit? || a.UserDelete?)
    requires Known(s, a.k) && UserStep(s, a, s')
    ensures Inv(v, s')
  {
    AppendOk(v, s, a.k, if a.UserEdit? then a.m else Last(s.slots[a.k].history).m.(deleting := true));
  }

  lemma VanishOk(v: Cleanup, s: System, k: Key, s': System)
    requires Inv(v, s) && Known(s, k) && UserStep(s, Vanish(k), s')
    ensures Inv(v, s')
  {
    ReplaceOk(v, s, k, Absent, s');
  }

  /** What a step of the cloud itself may do to the load balancers. */
  ghost predicate CloudMoves(s: System, s': System) {
    && s'.slots == s.slots && s'.owners == s.owners && s'.origin == s.origin
    && s.minted <= s'.minted && s'.lbs.Keys <= s'.minted && "" !in s'.minted
    && (forall id :: id in s'.lbs && id in s.minted ==>
          id in s.lbs && SameCreationTag(s.lbs[id].tags, s'.lbs[id].tags) && s'.lbs[id].name == s.lbs[id].name)
    && (forall id :: id in s'.lbs && id !in s.minted ==> CREATION !in s'.lbs[id].tags)
  }

  lemma CloudKeys(v: Cleanup, s: System, s': System)
    requires KeysOk(v, s) && CloudMoves(s, s')
    ensures KeysOk(v, s')
  {
    forall k | k in s'.slots ensures KeyOk(v, s', k) {
      KeyFrame(v, s, s', k);
    }
  }

  lemma CloudLbs(s: System, s': System)
    requires LbsOk(s) && Unique(s) && CloudMoves(s, s')
    ensures LbsOk(s') && Unique(s') && (Safe(s) ==> Safe(s'))
  {
    forall id | Tagged(s', id) ensures Tagged(s, id) && s.lbs[id].tags[CREATION] == s'.lbs[id].tags[CREATION] &&
      LbOk(s', id) {
      assert LbOk(s, id);
    }
  }

  lemma CloudStepOk(v: Cleanup, s: System, a: Action, s': System)
    requires Inv(v, s)
    requires a.CloudAppear? || a.CloudVanish? || a.CloudDrift?
    requires CloudStep(s, a, s')
    ensures Inv(v, s')
  {
    assert CloudMoves(s, s');
    CloudKeys(v, s, s');
    CloudLbs(s, s');
  }

  lemma ReadOk(v: Cleanup, s: System, k: Key, version: nat, s': System)
    requires Inv(v, s) && Known(s, k) && ReadStep(s, k, version, s')
    ensures Inv(v, s')
  {
    assert KeyOk(v, s, k);
    LocalStep(v, s, s', k, s'.slots[k]);
  }

  lemma AddFinalizerOk(v: Cleanup, s: System, k: Key, answered: bool, s': System)
    requires Inv(v, s) && Known(s, k) && EnsureStep(s, AddFinalizer(k, answered), s')
    ensures Inv(v, s')
  {
    assert KeyOk(v, s, k);
    var pc := s.slots[k].pc;
    var m := pc.m.(finalizer := true);
    var next := if answered then Ensuring(pc.at + 1, m) else Idle;
    var t := Append(s, k, Present(m));
    assert pc.AddingFinalizer? && Fresh(s, k, pc.at) && s' == Goto(t, k, next);
    hide Inv, EnsureStep, PcOk, KeyOk, Ensuring;
    AddFinalizerPc(v, s, k, answered);
    AppendOk(v, s, k, m);
    GotoOk(v, t, k, next);
  }

  /** With the finalizer on, the worker may go on to ensure the load balancer. */
  lemma AddFinalizerPc(v: Cleanup, s: System, k: Key, answered: bool)
    requires KeyOk(v, s, k) && Known(s, k) && s.slots[k].pc.AddingFinalizer? && Fresh(s, k, s.slots[k].pc.at)
    ensures var pc := s.slots[k].pc;
            var m := pc.m.(finalizer := true);
            var t := Append(s, k, Present(m));
            && Last(s.slots[k].history).Present? && Last(s.slots[k].history).m.uid == m.uid
            && PcOk(v, t.slots[k].(pc := if answered then Ensuring(pc.at + 1, m) else Idle), t)
  {
  }

  /** A worker that finds no load balancer of its name under its tag knows that none carries the tag. */
  lemma LookUpOk(v: Cleanup, s: System, k: Key, found: Option<Uuid>, s': System)
    requires Inv(v, s) && Known(s, k) && EnsureStep(s, LookUp(k, found), s')
    ensures Inv(v, s')
  {
    assert KeyOk(v, s, k);
    var pc := s.slots[k].pc;
    assert s.slots[k].history[pc.at] == Present(pc.m);
    match found
    case Some(id) =>
      assert LbOk(s, id);
      GotoOk(v, s, k, Ensured(pc.at, pc.m, id, s.lbs[id]));
    case None =>
      forall id | id in s.lbs ensures !HasTag(s.lbs[id], CREATION, pc.m.uid) {
        assert LbOk(s, id);
      }
      GotoOk(v, s, k, Creating(pc.at, pc.m));
  }

  lemma FetchOk(v: Cleanup, s: System, k: Key, s': System)
    requires Inv(v, s) && Known(s, k) && EnsureStep(s, FetchLb(k), s')
    ensures Inv(v, s')
  {
    assert KeyOk(v, s, k);
    var pc := s.slots[k].pc;
    GotoOk(v, s, k, s'.slots[k].pc);
  }

  lemma AdoptOk(v: Cleanup, s: System, k: Key, answered: bool, s': System)
    requires Inv(v, s) && Known(s, k) && EnsureStep(s, AdoptLb(k, answered), s')
    ensures Inv(v, s')
  {
    assert KeyOk(v, s, k);
    var pc := s.slots[k].pc;
    var lb := s.lbs[pc.m.uuid].(tags := pc.tags);
    var t := s.(lbs := s.lbs[pc.m.uuid := lb]);
    CloudStepOk(v, s, CloudDrift(pc.m.uuid, lb), t);
    GotoOk(v, t, k, if answered then Ensured(pc.at, pc.m, pc.m.uuid, lb) else Idle);
  }

  lemma RecordOk(v: Cleanup, s: System, k: Key, answered: bool, s': System)
    requires Inv(v, s) && Known(s, k) && EnsureStep(s, Record(k, answered), s')
    ensures Inv(v, s')
  {
    assert KeyOk(v, s, k);
    var pc := s.slots[k].pc;
    var m := pc.m.(uuid := pc.id, zone := pc.newZone);
    AppendOk(v, s, k, m);
    var t := Append(s, k, Present(m));
    GotoOk(v, t, k, Idle);
    RecordsFrame(v, Goto(t, k, Idle), s');
  }

  lemma RecordsFrame(v: Cleanup, s: System, s': System)
    requires Inv(v, s) && s' == s.(records := s'.records) && RecordsOk(s')
    ensures Inv(v, s')
  {
    forall k | k in s'.slots ensures KeyOk(v, s', k) {
      KeyFrame(v, s, s', k);
    }
    CloudLbs(s, s');
  }

  lemma RecordZoneOk(v: Cleanup, s: System, k: Key, answered: bool, s': System)
    requires Inv(v, s) && Known(s, k) && EnsureStep(s, RecordZone(k, answered), s')
    ensures Inv(v, s')
  {
    assert KeyOk(v, s, k);
    var m := s.slots[k].pc.m.(zone := s.slots[k].pc.newZone);
    AppendOk(v, s, k, m);
    GotoOk(v, Append(s, k, Present(m)), k, Idle);
  }

  lemma FinishOk(v: Cleanup, s: System, k: Key)
    requires Inv(v, s) && Known(s, k)
    ensures Inv(v, Goto(s, k, Idle))
  {
    GotoOk(v, s, k, Idle);
  }

  lemma DeleteNamedOk(v: Cleanup, s: System, k: Key, answered: bool, s': System)
    requires Inv(v, s) && Known(s, k) && CleanupStep(v, s, DeleteNamed(k, answered), s')
    ensures Inv(v, s')
  {
    assert KeyOk(v, s, k);
    var pc := s.slots[k].pc;
    var t := s.(lbs := s.lbs - {pc.m.uuid});
    CloudStepOk(v, s, CloudVanish(pc.m.uuid), t);
    GotoOk(v, t, k, if answered then Sweeping(pc.at, pc.m) else Idle);
  }

  lemma NamedMissingOk(v: Cleanup, s: System, k: Key, s': System)
    requires Inv(v, s) && Known(s, k) && CleanupStep(v, s, NamedMissing(k), s')
    ensures Inv(v, s')
  {
    assert KeyOk(v, s, k);
    GotoOk(v, s, k, s'.slots[k].pc);
  }

  lemma SweepOk(v: Cleanup, s: System, k: Key, todo: seq<Uuid>, s': System)
    requires Inv(v, s) && Known(s, k) && CleanupStep(v, s, Sweep(k, todo), s')
    ensures Inv(v, s')
  {
    assert KeyOk(v, s, k);
    var pc := s.slots[k].pc;
    assert s.slots[k].history[pc.at] == Present(pc.m);
    forall id | v == Intended && id in s.lbs && HasTag(s.lbs[id], CREATION, pc.m.uid) ensures id in todo {
      assert LbOk(s, id);
    }
    GotoOk(v, s, k, Purging(pc.at, pc.m, todo));
  }

  lemma PurgeOk(v: Cleanup, s: System, k: Key, answered: bool, s': System)
    requires Inv(v, s) && Known(s, k) && CleanupStep(v, s, Purge(k, answered), s')
    ensures Inv(v, s')
  {
    assert KeyOk(v, s, k);
    var pc := s.slots[k].pc;
    var t := s.(lbs := s.lbs - {pc.todo[0]});
    var next := if answered then Purging(pc.at, pc.m, pc.todo[1..]) else Idle;
    assert s' == Goto(t, k, next) && CloudStep(s, CloudVanish(pc.todo[0]), t);
    PurgePc(v, s, k, answered);
    hide Inv, PcOk, KeyOk, CleanupStep;
    CloudStepOk(v, s, CloudVanish(pc.todo[0]), t);
    GotoOk(v, t, k, next);
  }

  lemma PurgePc(v: Cleanup, s: System, k: Key, answered: bool)
    requires KeyOk(v, s, k) && Known(s, k) && s.slots[k].pc.Purging? && s.slots[k].pc.todo != []
    ensures var pc := s.slots[k].pc;
            var t := s.(lbs := s.lbs - {pc.todo[0]});
            PcOk(v, t.slots[k].(pc := if answered then Purging(pc.at, pc.m, pc.todo[1..]) else Idle), t)
  {
  }

  lemma PurgeDoneOk(v: Cleanup, s: System, k: Key, s': System)
    requires Inv(v, s) && Known(s, k) && CleanupStep(v, s, PurgeDone(k), s')
    ensures Inv(v, s')
  {
    assert KeyOk(v, s, k);
    GotoOk(v, s, k, RemovingFinalizer(s.slots[k].pc.at, s.slots[k].pc.m));
  }

  lemma RemoveFinalizerKey(v: Cleanup, s: System, k: Key, answered: bool, s': System)
    requires KeyOk(v, s, k) && CleanupStep(v, s, RemoveFinalizer(k, answered), s')
    ensures KeyOk(v, s', k)
    ensures forall uid :: Holds(s.slots[k].history, uid) ==> uid == s.slots[k].pc.m.uid
    ensures v == Intended ==> NoneTagged(s.lbs, s.slots[k].pc.m.uid)
  {
    var w, w' := s.slots[k], s'.slots[k];
    assert forall i :: 0 <= i < |w.history| ==> w'.history[i] == w.history[i];
  }

  lemma RemoveFinalizerOk(v: Cleanup, s: System, k: Key, answered: bool, s': System)
    requires Inv(v, s) && Known(s, k) && CleanupStep(v, s, RemoveFinalizer(k, answered), s')
    ensures Inv(v, s')
  {
    RemoveFinalizerKey(v, s, k, answered, s');
    LocalStep(v, s, s', k, s'.slots[k]);
  }

  lemma CreateKeys(v: Cleanup, s: System, k: Key, id: Uuid, lb: CloudLb, answered: bool, s': System)
    requires KeysOk(v, s) && IdsOk(s) && Known(s, k) && EnsureStep(s, CreateLb(k, id, lb, answered), s')
    ensures KeysOk(v, s')
  {
    var pc := s.slots[k].pc;
    assert KeyOk(v, s, k);
    assert s.slots[k].history[pc.at] == Present(pc.m);
    assert HasTag(lb, CREATION, pc.m.uid);
    assert KeyOk(v, s', k) by { CreateOwnKey(v, s, k, id, lb, answered, s'); }
    forall j | j in s'.slots && j != k ensures KeyOk(v, s', j) {
      KeyFrame(v, s, s', j);
    }
  }

  lemma CreateOwnKey(v: Cleanup, s: System, k: Key, id: Uuid, lb: CloudLb, answered: bool, s': System)
    requires KeyOk(v, s, k) && Known(s, k) && EnsureStep(s, CreateLb(k, id, lb, answered), s')
    ensures KeyOk(v, s', k)
  {
    assert s.slots[k].history[s.slots[k].pc.at] == Present(s.slots[k].pc.m);
  }

  lemma CreateOk(v: Cleanup, s: System, k: Key, id: Uuid, lb: CloudLb, answered: bool, s': System)
    requires Inv(v, s) && Known(s, k) && EnsureStep(s, CreateLb(k, id, lb, answered), s')
    ensures Inv(v, s')
  {
    CreateKeys(v, s, k, id, lb, answered, s');
    CreateLbs(v, s, k, id, lb, answered, s');
  }

  /** The load balancer just created is the only one with its tag, and the finalizer holds its object. */
  lemma CreateLbs(v: Cleanup, s: System, k: Key, id: Uuid, lb: CloudLb, answered: bool, s': System)
    requires KeyOk(v, s, k) && LbsOk(s) && IdsOk(s) && Unique(s) && EnsureStep(s, CreateLb(k, id, lb, answered), s')
    ensures LbsOk(s') && Unique(s') && (Safe(s) ==> Safe(s'))
  {
    var uid := s.slots[k].pc.m.uid;
    assert s.slots[k].history[s.slots[k].pc.at] == Present(s.slots[k].pc.m);
    assert NoneTagged(s.lbs, uid) && Holds(s'.slots[k].history, uid);
    assert LbOk(s', id);
    forall i | Tagged(s', i) && i != id
      ensures Tagged(s, i) && LbOk(s', i) && s'.lbs[i] == s.lbs[i] && s.lbs[i].tags[CREATION] != uid
    {
      assert LbOk(s, i) && !HasTag(s.lbs[i], CREATION, uid);
    }
  }

  // ---------------------------------------------------------------- all runs

  lemma EnsureOk(v: Cleanup, s: System, a: Action, s': System)
    requires a.AddFinalizer? || a.LookUp? || a.CreateLb? || a.FetchLb? || a.AdoptLb? || a.Record? || a.RecordZone? ||
      a.FinishChildren?
    requires Inv(v, s) && Known(s, a.k) && EnsureStep(s, a, s')
    ensures Inv(v, s')
  {
    hide Inv;
    match a
    case AddFinalizer(k, answered) => AddFinalizerOk(v, s, k, answered, s');
    case LookUp(k, found) => LookUpOk(v, s, k, found, s');
    case CreateLb(k, id, lb, answered) => CreateOk(v, s, k, id, lb, answered, s');
    case FetchLb(k) => FetchOk(v, s, k, s');
    case AdoptLb(k, answered) => AdoptOk(v, s, k, answered, s');
    case Record(k, answered) => RecordOk(v, s, k, answered, s');
    case RecordZone(k, answered) => RecordZoneOk(v, s, k, answered, s');
    case FinishChildren(k) => FinishOk(v, s, k);
  }

  lemma CleanupOk(v: Cleanup, s: System, a: Action, s': System)
    requires a.DeleteNamed? || a.NamedMissing? || a.Sweep? || a.Purge? || a.PurgeDone? || a.RemoveFinalizer?
    requires Inv(v, s) && Known(s, a.k) && CleanupStep(v, s, a, s')
    ensures Inv(v, s')
  {
    hide Inv;
    match a
    case DeleteNamed(k, answered) => DeleteNamedOk(v, s, k, answered, s');
    case NamedMissing(k) => NamedMissingOk(v, s, k, s');
    case Sweep(k, todo) => SweepOk(v, s, k, todo, s');
    case Purge(k, answered) => PurgeOk(v, s, k, answered, s');
    case PurgeDone(k) => PurgeDoneOk(v, s, k, s');
    case RemoveFinalizer(k, answered) => RemoveFinalizerOk(v, s, k, answered, s');
  }

  /** Every step of every actor keeps the invariant. */
  lemma NextOk(v: Cleanup, s: System, a: Action, s': System)
    requires Inv(v, s) && Next(v, s, a, s')
    ensures Inv(v, s')
  {
    hide Inv, UserStep, CloudStep, ReadStep, EnsureStep, CleanupStep;
    match a
    case CloudAppear(_, _) => CloudStepOk(v, s, a, s');
    case CloudVanish(_) => CloudStepOk(v, s, a, s');
    case CloudDrift(_, _) => CloudStepOk(v, s, a, s');
    case UserCreate(k, m) => UserCreateOk(v, s, k, m, s');
    case UserEdit(_, _) => UserChangeOk(v, s, a, s');
    case UserDelete(_) => UserChangeOk(v, s, a, s');
    case Vanish(k) => VanishOk(v, s, k, s');
    case Read(k, version) => ReadOk(v, s, k, version, s');
    case Fail(k) => FinishOk(v, s, k);
    case _ =>
      if a.DeleteNamed? || a.NamedMissing? || a.Sweep? || a.Purge? || a.PurgeDone? || a.RemoveFinalizer? {
        CleanupOk(v, s, a, s');
      } else {
        EnsureOk(v, s, a, s');
      }
  }

  lemma {:induction false} RunOk(v: Cleanup, states: seq<System>, actions: seq<Action>, i: nat)
    requires Run(v, states, actions) && i < |states|
    ensures Inv(v, states[i])
  {
    hide Inv;
    if i == 0 {
      InitOk(v, states[0]);
    } else {
      RunOk(v, states, actions, i - 1);
      NextOk(v, states[i - 1], actions[i - 1], states[i]);
    }
  }
}
