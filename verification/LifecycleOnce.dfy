/** Creation happens at most once in the whole life of an object, as long as nobody but the object's own
    cleanup removes the load balancers created for it. */
module LifecycleOnce {
  import opened Lifecycle
  import opened LifecycleProof

  /** Load balancers created by a worker are removed only by the cleanup of the object they were created for. */
  ghost predicate Undisturbed(s: System, a: Action, s': System) {
    forall id :: id in s.origin && id in s.lbs && id !in s'.lbs ==>
      (a.DeleteNamed? || a.Purge?) && a.k in s.slots && s.slots[a.k].pc != Idle && s.slots[a.k].pc.m.uid == s.origin[id]
  }

  ghost predicate DyingPc(pc: Pc) {
    pc.DeletingNamed? || pc.Sweeping? || pc.Purging? || pc.RemovingFinalizer?
  }

  /** Deletion of an object is irrevocable. */
  ghost predicate DeletionSticks(h: seq<Version>) {
    forall i, j :: 0 <= i < j < |h| && h[i].Present? && h[j].Present? && h[i].m.uid == h[j].m.uid ==>
      h[i].m.deleting ==> h[j].m.deleting
  }

  /** All the worker can still read of this object is that it is being deleted. */
  ghost predicate RetiredSlot(w: Slot, uid: Uid) {
    && (forall i :: w.seen <= i < |w.history| && w.history[i].Present? && w.history[i].m.uid == uid ==>
          w.history[i].m.deleting)
    && (w.pc != Idle && w.pc.m.uid == uid ==> DyingPc(w.pc))
  }

  ghost predicate Retired(s: System, uid: Uid) {
    uid in s.owners && s.owners[uid] in s.slots && RetiredSlot(s.slots[s.owners[uid]], uid)
  }

  ghost predicate Once(s: System) {
    && (forall k :: k in s.slots ==> DeletionSticks(s.slots[k].history))
    && (forall id :: id in s.origin && id in s.lbs ==> HasTag(s.lbs[id], CREATION, s.origin[id]))
    && (forall id :: id in s.origin && id !in s.lbs ==> Retired(s, s.origin[id]))
    && (forall i, j :: i in s.origin && j in s.origin && s.origin[i] == s.origin[j] ==> i == j)
  }

  /** A new version continues the object of the last one, or starts one with a fresh UID. */
  ghost predicate Continues(s: System, h: seq<Version>, h': seq<Version>)
    requires h != []
  {
    || h' == h
    || (&& |h'| == |h| + 1 && h'[..|h|] == h
        && (Last(h').Present? ==>
              || Last(h').m.uid !in s.owners
              || (Last(h).Present? && Last(h').m.uid == Last(h).m.uid && (Last(h).m.deleting ==> Last(h').m.deleting))))
  }

  /** How a step of `k` moves its slot. */
  ghost predicate Moves(s: System, w: Slot, w': Slot)
    requires w.history != []
  {
    && Continues(s, w.history, w'.history)
    && w.seen <= w'.seen < |w'.history|
    && (w'.pc != Idle ==>
          || (w.pc != Idle && w'.pc.m.uid == w.pc.m.uid && (DyingPc(w.pc) ==> DyingPc(w'.pc)))
          || (w'.seen < |w.history| && w.history[w'.seen].Present? && w.history[w'.seen].m.uid == w'.pc.m.uid
              && (w.history[w'.seen].m.deleting ==> DyingPc(w'.pc))))
  }

  lemma UserMoves(s: System, a: Action, s': System, k: Key)
    requires a.UserCreate? || a.UserEdit? || a.UserDelete? || a.Vanish?
    requires Known(s, a.k) && UserStep(s, a, s') && Known(s, k) && s.slots[k].seen < |s.slots[k].history|
    ensures k in s'.slots && Moves(s, s.slots[k], s'.slots[k])
  {
    var h, h' := s.slots[k].history, s'.slots[k].history;
    assert a.k == k ==> |h'| == |h| + 1 && h'[..|h|] == h;
  }

  lemma WriteMoves(v: Cleanup, s: System, a: Action, s': System, k: Key)
    requires a.AddFinalizer? || a.Record? || a.RecordZone?
    requires Known(s, a.k) && EnsureStep(s, a, s') && KeyOk(v, s, k)
    ensures k in s'.slots && Moves(s, s.slots[k], s'.slots[k])
  {
    var h, h' := s.slots[k].history, s'.slots[k].history;
    assert a.k == k ==> |h'| == |h| + 1 && h'[..|h|] == h;
  }

  lemma CallMoves(v: Cleanup, s: System, a: Action, s': System, k: Key)
    requires a.LookUp? || a.CreateLb? || a.FetchLb? || a.AdoptLb? || a.FinishChildren?
    requires Known(s, a.k) && EnsureStep(s, a, s') && KeyOk(v, s, k)
    ensures k in s'.slots && Moves(s, s.slots[k], s'.slots[k])
  {
    assert s'.slots[k].history == s.slots[k].history && s'.slots[k].seen == s.slots[k].seen;
  }

  lemma CleanupMoves(v: Cleanup, s: System, a: Action, s': System, k: Key)
    requires a.DeleteNamed? || a.NamedMissing? || a.Sweep? || a.Purge? || a.PurgeDone? || a.RemoveFinalizer?
    requires Known(s, a.k) && CleanupStep(v, s, a, s') && KeyOk(v, s, k)
    ensures k in s'.slots && Moves(s, s.slots[k], s'.slots[k])
  {
    var h, h' := s.slots[k].history, s'.slots[k].history;
    assert a.k == k && a.RemoveFinalizer? ==> |h'| == |h| + 1 && h'[..|h|] == h;
  }

  lemma StepMoves(v: Cleanup, s: System, a: Action, s': System, k: Key)
    requires Next(v, s, a, s') && KeyOk(v, s, k)
    ensures k in s'.slots && Moves(s, s.slots[k], s'.slots[k])
  {
    hide UserStep, EnsureStep, CleanupStep, PcOk, ReadsHold, Owned;
    if a.UserCreate? || a.UserEdit? || a.UserDelete? || a.Vanish? {
      UserMoves(s, a, s', k);
    } else if a.CloudAppear? || a.CloudVanish? || a.CloudDrift? || a.Read? || a.Fail? {
    } else if a.DeleteNamed? || a.NamedMissing? || a.Sweep? || a.Purge? || a.PurgeDone? || a.RemoveFinalizer? {
      CleanupMoves(v, s, a, s', k);
    } else if a.AddFinalizer? || a.Record? || a.RecordZone? {
      WriteMoves(v, s, a, s', k);
    } else {
      CallMoves(v, s, a, s', k);
    }
  }

  lemma SlotKept(s: System, w: Slot, w': Slot, uid: Uid)
    requires w.history != [] && w.seen < |w.history| && Moves(s, w, w') && uid in s.owners
    requires RetiredSlot(w, uid)
    ensures RetiredSlot(w', uid)
  {
    forall i | w'.seen <= i < |w'.history| && w'.history[i].Present? && w'.history[i].m.uid == uid
      ensures w'.history[i].m.deleting
    {
      if i < |w.history| {
        assert w'.history[i] == w.history[i];
      }
    }
  }

  lemma SticksKept(s: System, k: Key, h: seq<Version>, h': seq<Version>)
    requires h != [] && Continues(s, h, h') && Owned(h, s.owners, k) && DeletionSticks(h)
    ensures DeletionSticks(h')
  {
    forall i, j | 0 <= i < j < |h'| && h'[i].Present? && h'[j].Present? && h'[i].m.uid == h'[j].m.uid &&
      h'[i].m.deleting
      ensures h'[j].m.deleting
    {
      assert i < |h| && h'[i] == h[i];
      if j < |h| {
        assert h'[j] == h[j];
      } else if i < |h| - 1 {
        assert Last(h) == h[|h| - 1];
      }
    }
  }

  /** Keys stay, and neither an owner, an origin nor a creation tag ever changes; only a create adds an origin. */
  ghost predicate Keeps(s: System, a: Action, s': System) {
    Grows(s, s') && s'.slots.Keys == s.slots.Keys && (a.CreateLb? || s'.origin == s.origin)
  }

  lemma AdoptKeeps(v: Cleanup, s: System, k: Key, answered: bool, s': System)
    requires IdsOk(s) && KeyOk(v, s, k) && EnsureStep(s, AdoptLb(k, answered), s')
    ensures Keeps(s, AdoptLb(k, answered), s')
  {
    hide ReadsHold, Owned;
  }

  lemma WriteKeeps(s: System, a: Action, s': System)
    requires a.AddFinalizer? || a.Record? || a.RecordZone?
    requires IdsOk(s) && Known(s, a.k) && EnsureStep(s, a, s')
    ensures Keeps(s, a, s')
  {
  }

  lemma CallKeeps(s: System, a: Action, s': System)
    requires a.LookUp? || a.CreateLb? || a.FetchLb? || a.FinishChildren?
    requires IdsOk(s) && Known(s, a.k) && EnsureStep(s, a, s')
    ensures Keeps(s, a, s')
  {
  }

  lemma CleanupKeeps(v: Cleanup, s: System, a: Action, s': System)
    requires a.DeleteNamed? || a.NamedMissing? || a.Sweep? || a.Purge? || a.PurgeDone? || a.RemoveFinalizer?
    requires IdsOk(s) && Known(s, a.k) && CleanupStep(v, s, a, s')
    ensures Keeps(s, a, s')
  {
  }

  lemma OtherKeeps(v: Cleanup, s: System, a: Action, s': System)
    requires a.UserCreate? || a.UserEdit? || a.UserDelete? || a.Vanish? || a.CloudAppear? || a.CloudVanish? ||
      a.CloudDrift? || a.Read? || a.Fail?
    requires IdsOk(s) && Next(v, s, a, s')
    ensures Keeps(s, a, s')
  {
  }

  lemma StepGrows(v: Cleanup, s: System, a: Action, s': System)
    requires Inv(v, s) && Next(v, s, a, s')
    ensures Keeps(s, a, s')
  {
    hide UserStep, CloudStep, ReadStep, EnsureStep, CleanupStep, KeyOk, Keeps, LbsOk, Unique, Safe, RecordsOk;
    if a.UserCreate? || a.UserEdit? || a.UserDelete? || a.Vanish? || a.CloudAppear? || a.CloudVanish? ||
      a.CloudDrift? || a.Read? || a.Fail? {
      OtherKeeps(v, s, a, s');
    } else if a.DeleteNamed? || a.NamedMissing? || a.Sweep? || a.Purge? || a.PurgeDone? || a.RemoveFinalizer? {
      CleanupKeeps(v, s, a, s');
    } else if a.AdoptLb? {
      AdoptKeeps(v, s, a.k, a.answered, s');
    } else if a.AddFinalizer? || a.Record? || a.RecordZone? {
      WriteKeeps(s, a, s');
    } else {
      CallKeeps(s, a, s');
    }
  }

  lemma RetiredKept(v: Cleanup, s: System, a: Action, s': System, uid: Uid)
    requires Inv(v, s) && Next(v, s, a, s') && Retired(s, uid)
    ensures Retired(s', uid)
  {
    hide Next, RetiredSlot, Moves;
    var k := s.owners[uid];
    assert KeyOk(v, s, k);
    StepGrows(v, s, a, s');
    StepMoves(v, s, a, s', k);
    SlotKept(s, s.slots[k], s'.slots[k], uid);
  }

  lemma HistoriesKept(v: Cleanup, s: System, a: Action, s': System, k: Key)
    requires Inv(v, s) && Next(v, s, a, s') && k in s'.slots
    requires k in s.slots ==> DeletionSticks(s.slots[k].history)
    ensures DeletionSticks(s'.slots[k].history)
  {
    hide Next, DeletionSticks;
    StepGrows(v, s, a, s');
    assert KeyOk(v, s, k);
    StepMoves(v, s, a, s', k);
    SticksKept(s, k, s.slots[k].history, s'.slots[k].history);
  }

  /** A load balancer removed by the cleanup of its object retires the object. */
  lemma RemovalRetires(v: Cleanup, s: System, k: Key, uid: Uid)
    requires KeyOk(v, s, k) && DeletionSticks(s.slots[k].history)
    requires DyingPc(s.slots[k].pc) && s.slots[k].pc.m.uid == uid
    ensures Retired(s, uid)
  {
    var w := s.slots[k];
    assert w.history[w.seen] == Present(w.pc.m);
  }

  /** A worker about to create has not created for this object before. */
  lemma FirstCreation(v: Cleanup, s: System, k: Key, id: Uuid)
    requires KeyOk(v, s, k) && Once(s) && s.slots[k].pc.Creating? && id in s.origin
    ensures s.origin[id] != s.slots[k].pc.m.uid
  {
    assert s.slots[k].history[s.slots[k].pc.at] == Present(s.slots[k].pc.m);
  }

  lemma OriginsKept(v: Cleanup, s: System, a: Action, s': System)
    requires Inv(v, s) && Next(v, s, a, s') && Once(s)
    ensures forall i, j :: i in s'.origin && j in s'.origin && s'.origin[i] == s'.origin[j] ==> i == j
    ensures forall id :: id in s'.origin && id !in s.origin ==>
      id in s'.lbs && HasTag(s'.lbs[id], CREATION, s'.origin[id])
  {
    hide Inv, Next;
    StepGrows(v, s, a, s');
    if a.CreateLb? {
      CreateOrigin(v, s, a.k, a.id, a.lb, a.answered, s');
      forall id | id in s.origin ensures s.origin[id] != s.slots[a.k].pc.m.uid {
        FirstCreation(v, s, a.k, id);
      }
    }
  }

  lemma CreateOrigin(v: Cleanup, s: System, k: Key, id: Uuid, lb: CloudLb, answered: bool, s': System)
    requires Inv(v, s) && Next(v, s, CreateLb(k, id, lb, answered), s')
    ensures KeyOk(v, s, k) && s.slots[k].pc.Creating? && s'.origin == s.origin[id := s.slots[k].pc.m.uid]
    ensures id in s'.lbs && HasTag(s'.lbs[id], CREATION, s.slots[k].pc.m.uid)
  {
  }

  lemma OnceKept(v: Cleanup, s: System, a: Action, s': System)
    requires Inv(v, s) && Next(v, s, a, s') && Once(s) && Undisturbed(s, a, s')
    ensures Once(s')
  {
    hide Next, Retired, DeletionSticks;
    OriginsKept(v, s, a, s');
    StepGrows(v, s, a, s');
    forall k | k in s'.slots ensures DeletionSticks(s'.slots[k].history) {
      HistoriesKept(v, s, a, s', k);
    }
    forall id | id in s'.origin && id !in s'.lbs ensures Retired(s', s'.origin[id]) {
      if id in s.lbs {
        RemoverDies(v, s, a, s');
        RemovalRetires(v, s, a.k, s.origin[id]);
      }
      RetiredKept(v, s, a, s', s.origin[id]);
    }
  }

  lemma RemoverDies(v: Cleanup, s: System, a: Action, s': System)
    requires Inv(v, s) && Next(v, s, a, s') && (a.DeleteNamed? || a.Purge?)
    ensures KeyOk(v, s, a.k) && DyingPc(s.slots[a.k].pc)
  {
  }

  /** A run in which nobody else removes what the workers created. */
  ghost predicate UndisturbedRun(v: Cleanup, states: seq<System>, actions: seq<Action>) {
    && Run(v, states, actions)
    && (forall i :: 0 <= i < |actions| ==> Undisturbed(states[i], actions[i], states[i + 1]))
  }

  lemma {:induction false} OnceRun(v: Cleanup, states: seq<System>, actions: seq<Action>, n: nat)
    requires UndisturbedRun(v, states, actions) && n < |states|
    ensures Once(states[n])
  {
    if n > 0 {
      OnceRun(v, states, actions, n - 1);
      RunOk(v, states, actions, n - 1);
      OnceKept(v, states[n - 1], actions[n - 1], states[n]);
    }
  }

  /** At-most-once creation: over a whole run with failures, lost answers, crashes and stale reads, the
      worker creates at most one load balancer for an object, ever. */
  lemma CreatedOnce(v: Cleanup, states: seq<System>, actions: seq<Action>, n: nat, i: Uuid, j: Uuid)
    requires UndisturbedRun(v, states, actions) && n < |states|
    requires i in states[n].origin && j in states[n].origin && states[n].origin[i] == states[n].origin[j]
    ensures i == j
  {
    OnceRun(v, states, actions, n);
  }
}
