/** The lifecycle protocol of `Reconcile`, `ensureLoadBalancer` and `cleanupLoadBalancer`
    as a state machine over API calls.

    Two stores are involved: the Kubernetes API (one version history per object key) and the
    cloud (a table of load balancers).  Every key has one worker.  A worker reads a manifest from
    a cache that may lag behind but never goes backwards, and then issues one call at a time.
    A call may take effect and be answered, take effect while the answer is lost, or fail without
    effect; a worker may also crash between any two calls.  Users, other workers and the cloud
    itself act between any two calls. */
module Lifecycle {
  import opened Api

  type Uid = string
  type Uuid = string

  type Key = NamespacedName

  const MANAGED := "appuio_io_loadbalancer_controller__managed"
  const ADOPTED := "appuio_io_loadbalancer_controller__adopted"
  const CREATION := "appuio_io_loadbalancer_controller__creation_kubernetes_uid"
  const FLAVOR := "lb-standard"

  /** The part of a manifest that the lifecycle depends on. */
  datatype Manifest = Manifest(uid: Uid, finalizer: bool, deleting: bool, uuid: Uuid, zone: string, hasVips: bool)

  /** One entry of the version history of a key.  The index of an entry is its resource version. */
  datatype Version = Absent | Present(m: Manifest)

  datatype CloudLb = CloudLb(name: string, tags: map<string, string>, zone: string, flavor: string, status: string,
                             vips: seq<string>)

  /** Where a worker stands, with its local copy `m` of the manifest read (or written) as version `at`. */
  datatype Pc =
    | Idle
    | AddingFinalizer(at: nat, m: Manifest)
    | LookingUp(at: nat, m: Manifest)
    | Creating(at: nat, m: Manifest)
    | Fetching(at: nat, m: Manifest)
    | Adopting(at: nat, m: Manifest, tags: map<string, string>)
    | Recording(at: nat, m: Manifest, id: Uuid, newZone: string)
    | RecordingZone(at: nat, m: Manifest, newZone: string)
    | Children(at: nat, m: Manifest)
    | DeletingNamed(at: nat, m: Manifest)
    | Sweeping(at: nat, m: Manifest)
    | Purging(at: nat, m: Manifest, todo: seq<Uuid>)
    | RemovingFinalizer(at: nat, m: Manifest)

  /** One key: its version history, the newest version its worker has read so far (reads never go
      behind it) and where its worker stands. */
  datatype Slot = Slot(history: seq<Version>, seen: nat, pc: Pc)

  /** `owners` maps every UID ever assigned to its key, `origin` every load balancer ever created by a
      worker to the UID it was created for, `minted` holds every load balancer UUID ever handed out and
      `records` every (UID, UUID) pair a worker ever wrote into a manifest. */
  datatype System = System(
    slots: map<Key, Slot>,
    lbs: map<Uuid, CloudLb>,
    owners: map<Uid, Key>,
    origin: map<Uuid, Uid>,
    minted: set<Uuid>,
    records: set<(Uid, Uuid)>)

  /** The cleanup as written filters on `MANAGED: uid` and stops when the named load balancer is
      missing; the intended one filters on `CREATION: uid` and goes on. */
  datatype Cleanup = AsWritten | Intended

  function CreationTags(uid: Uid): map<string, string> {
    map[MANAGED := "true", CREATION := uid]
  }

  predicate HasTag(lb: CloudLb, tag: string, value: string) {
    tag in lb.tags && lb.tags[tag] == value
  }

  /** The tag filter of the list call in `cleanupLoadBalancer`. */
  predicate SweepFilter(v: Cleanup, lb: CloudLb, uid: Uid) {
    HasTag(lb, if v == AsWritten then MANAGED else CREATION, uid)
  }

  // ---------------------------------------------------------------- steps

  datatype Action =
    | UserCreate(k: Key, m: Manifest)
    | UserEdit(k: Key, m: Manifest)
    | UserDelete(k: Key)
    | Vanish(k: Key)
    | CloudAppear(id: Uuid, lb: CloudLb)
    | CloudVanish(id: Uuid)
    | CloudDrift(id: Uuid, lb: CloudLb)
    | Read(k: Key, version: nat)
    | Fail(k: Key)
    | AddFinalizer(k: Key, answered: bool)
    | LookUp(k: Key, found: Option<Uuid>)
    | CreateLb(k: Key, id: Uuid, lb: CloudLb, answered: bool)
    | FetchLb(k: Key)
    | AdoptLb(k: Key, answered: bool)
    | Record(k: Key, answered: bool)
    | RecordZone(k: Key, answered: bool)
    | FinishChildren(k: Key)
    | DeleteNamed(k: Key, answered: bool)
    | NamedMissing(k: Key)
    | Sweep(k: Key, todo: seq<Uuid>)
    | Purge(k: Key, answered: bool)
    | PurgeDone(k: Key)
    | RemoveFinalizer(k: Key, answered: bool)

  function Last(h: seq<Version>): Version
    requires h != []
  {
    h[|h| - 1]
  }

  /** The key is known to both stores. */
  predicate Known(s: System, k: Key) {
    k in s.slots && s.slots[k].history != []
  }

  function Append(s: System, k: Key, v: Version): System
    requires Known(s, k)
  {
    s.(slots := s.slots[k := s.slots[k].(history := s.slots[k].history + [v])])
  }

  function Goto(s: System, k: Key, pc: Pc): System
    requires Known(s, k)
  {
    s.(slots := s.slots[k := s.slots[k].(pc := pc)])
  }

  /** Optimistic locking: an update is applied only to the version it was computed from. */
  predicate Fresh(s: System, k: Key, at: nat)
    requires Known(s, k)
  {
    at == |s.slots[k].history| - 1
  }

  /** Lines 89-108 of `Reconcile`: the branch taken on a manifest just read. */
  function AfterRead(at: nat, v: Version): Pc {
    match v
    case Absent => Idle
    case Present(m) =>
      if m.deleting && m.finalizer then
        if m.uuid != "" then DeletingNamed(at, m) else Sweeping(at, m)
      else if m.deleting then Idle
      else if !m.finalizer then AddingFinalizer(at, m)
      else Ensuring(at, m)
  }

  /** Line 750: whether `ensureLoadBalancer` looks a load balancer up by tag or fetches it by UUID. */
  function Ensuring(at: nat, m: Manifest): Pc {
    if m.uuid == "" then LookingUp(at, m) else Fetching(at, m)
  }

  /** Lines 114-141: what follows once a load balancer is ensured. */
  function Ensured(at: nat, m: Manifest, id: Uuid, lb: CloudLb): Pc {
    if m.uuid == "" then Recording(at, m, id, lb.zone)
    else if m.zone == "" then RecordingZone(at, m, lb.zone)
    else if lb.status == "changing" || m.uuid != id then Idle
    else Children(at, m)
  }

  /** Lines 824-832: whether an unmanaged load balancer may be adopted. */
  predicate Adoptable(m: Manifest, lb: CloudLb) {
    !m.hasVips && lb.flavor == FLAVOR && (m.zone == "" || lb.zone == m.zone)
  }

  ghost predicate UserStep(s: System, a: Action, s': System)
    requires a.UserCreate? || a.UserEdit? || a.UserDelete? || a.Vanish?
    requires Known(s, a.k)
  {
    var last := Last(s.slots[a.k].history);
    match a
    case UserCreate(k, m) =>
      && last == Absent && m.uid !in s.owners && !m.deleting
      && s' == Append(s, k, Present(m)).(owners := s.owners[m.uid := k])
    case UserEdit(k, m) =>
      // Users (and status writes) may change anything but the identity; nobody but the controller
      // takes its finalizer off, and none can be added to an object that is being deleted.
      && last.Present? && m.uid == last.m.uid && m.deleting == last.m.deleting
      && (last.m.finalizer ==> m.finalizer) && (last.m.deleting ==> m.finalizer == last.m.finalizer)
      && s' == Append(s, k, Present(m))
    case UserDelete(k) =>
      && last.Present? && !last.m.deleting
      && s' == Append(s, k, Present(last.m.(deleting := true)))
    case Vanish(k) =>
      && last.Present? && last.m.deleting && !last.m.finalizer
      && s' == Append(s, k, Absent)
  }

  ghost predicate CloudStep(s: System, a: Action, s': System)
    requires a.CloudAppear? || a.CloudVanish? || a.CloudDrift?
  {
    match a
    case CloudAppear(id, lb) =>
      && id !in s.minted && id != "" && CREATION !in lb.tags
      && s' == s.(lbs := s.lbs[id := lb], minted := s.minted + {id})
    case CloudVanish(id) =>
      s' == s.(lbs := s.lbs - {id})
    case CloudDrift(id, lb) =>
      // The cloud may change anything but the name and the creation tag.
      && id in s.lbs && lb.name == s.lbs[id].name
      && (CREATION in lb.tags <==> CREATION in s.lbs[id].tags)
      && (CREATION in lb.tags ==> lb.tags[CREATION] == s.lbs[id].tags[CREATION])
      && s' == s.(lbs := s.lbs[id := lb])
  }

  /** The calls of the creating half of `Reconcile`. */
  ghost predicate EnsureStep(s: System, a: Action, s': System)
    requires a.AddFinalizer? || a.LookUp? || a.CreateLb? || a.FetchLb? || a.AdoptLb? || a.Record? || a.RecordZone? ||
      a.FinishChildren?
    requires Known(s, a.k)
  {
    var pc := s.slots[a.k].pc;
    match a
    case AddFinalizer(k, answered) =>
      && pc.AddingFinalizer? && Fresh(s, k, pc.at)
      && var m := pc.m.(finalizer := true);
         s' == Goto(Append(s, k, Present(m)), k, if answered then Ensuring(pc.at + 1, m) else Idle)
    case LookUp(k, found) =>
      && pc.LookingUp?
      && (match found
          case Some(id) =>
            && id in s.lbs && HasTag(s.lbs[id], CREATION, pc.m.uid) && s.lbs[id].name == CloudName(k)
            && s' == Goto(s, k, Ensured(pc.at, pc.m, id, s.lbs[id]))
          case None =>
            && (forall id :: id in s.lbs && HasTag(s.lbs[id], CREATION, pc.m.uid) ==> s.lbs[id].name != CloudName(k))
            && s' == Goto(s, k, Creating(pc.at, pc.m)))
    case CreateLb(k, id, lb, answered) =>
      && pc.Creating? && id !in s.minted && id != ""
      && lb.name == CloudName(k) && lb.tags == CreationTags(pc.m.uid) && (pc.m.zone != "" ==> lb.zone == pc.m.zone)
      && s' == Goto(s, k, if answered then Ensured(pc.at, pc.m, id, lb) else Idle)
               .(lbs := s.lbs[id := lb], minted := s.minted + {id}, origin := s.origin[id := pc.m.uid])
    case FetchLb(k) =>
      && pc.Fetching? && pc.m.uuid in s.lbs
      && var lb := s.lbs[pc.m.uuid];
         s' == Goto(s, k,
                 if HasTag(lb, MANAGED, "true") then Ensured(pc.at, pc.m, pc.m.uuid, lb)
                 else if Adoptable(pc.m, lb) then Adopting(pc.at, pc.m, lb.tags[MANAGED := "true"][ADOPTED := "true"])
                 else Idle)
    case AdoptLb(k, answered) =>
      && pc.Adopting? && pc.m.uuid in s.lbs
      && var lb := s.lbs[pc.m.uuid].(tags := pc.tags);
         s' == Goto(s, k, if answered then Ensured(pc.at, pc.m, pc.m.uuid, lb) else Idle)
               .(lbs := s.lbs[pc.m.uuid := lb])
    case Record(k, answered) =>
      && pc.Recording? && Fresh(s, k, pc.at)
      && s' == Goto(Append(s, k, Present(pc.m.(uuid := pc.id, zone := pc.newZone))), k, Idle)
               .(records := s.records + {(pc.m.uid, pc.id)})
    case RecordZone(k, answered) =>
      && pc.RecordingZone? && Fresh(s, k, pc.at)
      && s' == Goto(Append(s, k, Present(pc.m.(zone := pc.newZone))), k, Idle)
    case FinishChildren(k) =>
      pc.Children? && s' == Goto(s, k, Idle)
  }

  /** The calls of `cleanupLoadBalancer` and the finalizer removal that follows it. */
  ghost predicate CleanupStep(v: Cleanup, s: System, a: Action, s': System)
    requires a.DeleteNamed? || a.NamedMissing? || a.Sweep? || a.Purge? || a.PurgeDone? || a.RemoveFinalizer?
    requires Known(s, a.k)
  {
    var pc := s.slots[a.k].pc;
    match a
    case DeleteNamed(k, answered) =>
      && pc.DeletingNamed? && pc.m.uuid in s.lbs
      && s' == Goto(s, k, if answered then Sweeping(pc.at, pc.m) else Idle).(lbs := s.lbs - {pc.m.uuid})
    case NamedMissing(k) =>
      && pc.DeletingNamed? && pc.m.uuid !in s.lbs
      && s' == Goto(s, k, if v == AsWritten then RemovingFinalizer(pc.at, pc.m) else Sweeping(pc.at, pc.m))
    case Sweep(k, todo) =>
      && pc.Sweeping?
      && (forall id :: id in todo <==>
            id in s.lbs && SweepFilter(v, s.lbs[id], pc.m.uid) && s.lbs[id].name == CloudName(k))
      && s' == Goto(s, k, Purging(pc.at, pc.m, todo))
    case Purge(k, answered) =>
      && pc.Purging? && pc.todo != [] && pc.todo[0] in s.lbs
      && s' == Goto(s, k, if answered then Purging(pc.at, pc.m, pc.todo[1..]) else Idle).(lbs := s.lbs - {pc.todo[0]})
    case PurgeDone(k) =>
      && pc.Purging? && pc.todo == []
      && s' == Goto(s, k, RemovingFinalizer(pc.at, pc.m))
    case RemoveFinalizer(k, answered) =>
      && pc.RemovingFinalizer? && Fresh(s, k, pc.at)
      && s' == Goto(Append(s, k, Present(pc.m.(finalizer := false))), k, Idle)
  }

  ghost predicate ReadStep(s: System, k: Key, version: nat, s': System)
    requires Known(s, k)
  {
    && s.slots[k].pc == Idle
    && s.slots[k].seen <= version < |s.slots[k].history|
    && s' == s.(slots := s.slots[k :=
         s.slots[k].(seen := version, pc := AfterRead(version, s.slots[k].history[version]))])
  }

  ghost predicate Next(v: Cleanup, s: System, a: Action, s': System) {
    if a.CloudAppear? || a.CloudVanish? || a.CloudDrift? then CloudStep(s, a, s')
    else
      && Known(s, a.k)
      && (if a.UserCreate? || a.UserEdit? || a.UserDelete? || a.Vanish? then UserStep(s, a, s')
          else if a.Read? then ReadStep(s, a.k, a.version, s')
          else if a.Fail? then s' == Goto(s, a.k, Idle)
          else if a.DeleteNamed? || a.NamedMissing? || a.Sweep? || a.Purge? || a.PurgeDone? || a.RemoveFinalizer?
          then CleanupStep(v, s, a, s')
          else EnsureStep(s, a, s'))
  }

  /** No object and no worker-created load balancer exists yet; foreign load balancers may. */
  ghost predicate Init(s: System) {
    && (forall k :: k in s.slots ==> s.slots[k] == Slot([Absent], 0, Idle))
    && s.owners == map[] && s.origin == map[] && s.records == {}
    && s.lbs.Keys <= s.minted && "" !in s.minted
    && (forall id :: id in s.lbs ==> CREATION !in s.lbs[id].tags)
  }

  /** A run: `states` linked by `actions`. */
  ghost predicate Run(v: Cleanup, states: seq<System>, actions: seq<Action>) {
    && |states| == |actions| + 1
    && Init(states[0])
    && (forall i :: 0 <= i < |actions| ==> Next(v, states[i], actions[i], states[i + 1]))
  }
}
