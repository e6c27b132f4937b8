/** Runs for different load balancers do not see each other: whatever the interleaving of their calls, each
    one's rows evolve as if it were alone, and the order of independent calls does not matter. */
module Isolation {
  import opened Tables
  import opened Patching
  import opened Frames
  import opened Children
  import opened Convergence
  import opened Reconcile
  import Nodes
  import L = Listeners
  import M = Monitors
  import B = Members
  import P = Pools

  ghost function OwnedBy<T>(owner: T -> string, u: string): T -> bool {
    x => owner(x) == u
  }

  /** The rows of one owner. */
  ghost function Part<T>(rows: map<string, T>, owner: T -> string, u: string): map<string, T> {
    map id | id in rows && owner(rows[id]) == u :: rows[id]
  }

  /** A call of `u` leaves the rows of others alone. */
  ghost predicate Call<T(!new)>(before: map<string, T>, now: map<string, T>, owner: T -> string, u: string) {
    SameElsewhere(before, now, OwnedBy(owner, u))
  }

  lemma OthersBlind<T(!new)>(before: map<string, T>, now: map<string, T>, owner: T -> string, u: string, v: string)
    requires Call(before, now, owner, u) && u != v
    ensures Part(now, owner, v) == Part(before, owner, v)
  {
    forall id | id in Part(before, owner, v) ensures id in Part(now, owner, v) && now[id] == before[id] {
      assert !OwnedBy(owner, u)(before[id]);
    }
    forall id | id in Part(now, owner, v) ensures id in Part(before, owner, v) {
      assert !OwnedBy(owner, u)(now[id]);
    }
  }

  // ---------------------------------------------------------------- calls as data

  /** A call that inserts, removes or changes a row of `u`. */
  ghost predicate OwnOp<T(!new)>(rows: map<string, T>, op: Op<T>, owner: T -> string, u: string) {
    && Legal(rows, op)
    && match op
       case Insert(_, row) => owner(row) == u
       case Remove(id) => owner(rows[id]) == u
       case Change(id, change) => owner(rows[id]) == u && owner(change(rows[id])) == u
  }

  /** Identifiers are never handed out twice. */
  ghost predicate NewFor<T(!new)>(op: Op<T>, other: Op<T>) {
    op.Insert? ==> op.id != other.id
  }

  /** Calls for different load balancers commute: either may be made first, each is a call of its owner in either
      order, and the state is the same. */
  lemma OpsCommute<T(!new)>(s: map<string, T>, x: Op<T>, y: Op<T>, owner: T -> string, u: string, v: string)
    requires OwnOp(s, x, owner, u) && OwnOp(Apply(s, x), y, owner, v) && u != v && NewFor(y, x)
    ensures OwnOp(s, y, owner, v) && OwnOp(Apply(s, y), x, owner, u)
    ensures Apply(Apply(s, x), y) == Apply(Apply(s, y), x)
  {
    assert x.id != y.id;
  }

  ghost function ApplyAll<T>(s: map<string, T>, ops: seq<Op<T>>): map<string, T>
    decreases |ops|
  {
    if ops == [] then s else ApplyAll(Apply(s, ops[0]), ops[1..])
  }

  ghost predicate OwnOps<T(!new)>(s: map<string, T>, ops: seq<Op<T>>, owner: T -> string, u: string)
    decreases |ops|
  {
    ops != [] ==> OwnOp(s, ops[0], owner, u) && OwnOps(Apply(s, ops[0]), ops[1..], owner, u)
  }

  ghost predicate AllNewFor<T(!new)>(ys: seq<Op<T>>, xs: seq<Op<T>>) {
    forall i, j :: 0 <= i < |ys| && 0 <= j < |xs| ==> NewFor(ys[i], xs[j])
  }

  /** One call and the calls of another owner after it. */
  lemma {:induction false} OpPast<T(!new)>(s: map<string, T>, x: Op<T>, ys: seq<Op<T>>, owner: T -> string, u: string,
                                           v: string)
    requires OwnOp(s, x, owner, u) && OwnOps(Apply(s, x), ys, owner, v) && u != v && forall i :: 0 <= i < |ys| ==>
      NewFor(ys[i], x)
    ensures OwnOps(s, ys, owner, v) && OwnOp(ApplyAll(s, ys), x, owner, u)
    ensures ApplyAll(Apply(s, x), ys) == Apply(ApplyAll(s, ys), x)
    decreases |ys|
  {
    if ys != [] {
      OpsCommute(s, x, ys[0], owner, u, v);
      hide OwnOp, Apply, NewFor;
      OpPast(Apply(s, ys[0]), x, ys[1..], owner, u, v);
    }
  }

  /** All calls of two runs: whichever run is made first, the calls of both are the same, each is a call of its owner,
      and so is the state in the end. */
  lemma {:induction false} RunsCommute<T(!new)>(s: map<string, T>, xs: seq<Op<T>>, ys: seq<Op<T>>, owner: T -> string,
                                                u: string, v: string)
    requires OwnOps(s, xs, owner, u) && OwnOps(ApplyAll(s, xs), ys, owner, v) && u != v && AllNewFor(ys, xs)
    ensures OwnOps(s, ys, owner, v) && OwnOps(ApplyAll(s, ys), xs, owner, u)
    ensures ApplyAll(ApplyAll(s, xs), ys) == ApplyAll(ApplyAll(s, ys), xs)
    decreases |xs|
  {
    hide OwnOp, Apply, NewFor;
    if xs != [] {
      RunsCommute(Apply(s, xs[0]), xs[1..], ys, owner, u, v);
      OpPast(s, xs[0], ys, owner, u, v);
    }
  }

  /** An effective call that leaves the rows of others alone is a call on a row of its owner. */
  lemma EffectIsOwn<T(!new)>(before: map<string, T>, now: map<string, T>, owner: T -> string, u: string)
    returns (ops: seq<Op<T>>)
    requires OneCall(before, now) && Call(before, now, owner, u)
    ensures |ops| <= 1 && OwnOps(before, ops, owner, u) && ApplyAll(before, ops) == now
  {
    if now == before {
      ops := [];
    } else {
      var op :| Legal(before, op) && now == Apply(before, op);
      ops := [op];
      assert OwnOp(before, op, owner, u) by { EffectOwned(before, op, owner, u); }
      hide OwnOp, Apply, Call;
      assert ops[1..] == [];
    }
  }

  lemma EffectOwned<T(!new)>(before: map<string, T>, op: Op<T>, owner: T -> string, u: string)
    requires Legal(before, op) && Call(before, Apply(before, op), owner, u) && Apply(before, op) != before
    ensures OwnOp(before, op, owner, u)
  {
    var now, f := Apply(before, op), OwnedBy(owner, u);
    match op {
      case Insert(id, row) =>
        assert f(now[id]);
      case Remove(id) =>
        assert f(before[id]);
      case Change(id, change) =>
        assert f(before[id]) && f(now[id]);
    }
  }

  lemma CallBack<T(!new)>(a: map<string, T>, b: map<string, T>, c: map<string, T>, owner: T -> string, u: string)
    requires Call(a, b, owner, u) && Call(a, c, owner, u)
    ensures Call(b, c, owner, u)
  {
  }

  lemma {:induction false} OpsSplit<T(!new)>(s: map<string, T>, xs: seq<Op<T>>, ys: seq<Op<T>>, owner: T -> string,
                                             u: string)
    requires OwnOps(s, xs, owner, u) && OwnOps(ApplyAll(s, xs), ys, owner, u)
    ensures OwnOps(s, xs + ys, owner, u) && ApplyAll(s, xs + ys) == ApplyAll(ApplyAll(s, xs), ys)
    decreases |xs|
  {
    hide OwnOp, Apply;
    if xs == [] {
      assert xs + ys == ys;
    } else {
      OpsSplit(Apply(s, xs[0]), xs[1..], ys, owner, u);
      assert (xs + ys)[1..] == xs[1..] + ys;
    }
  }

  /** The logged calls of a stretch of work confined to the rows of `u` are calls on rows of `u`, and add
      up to its effect. */
  lemma {:induction false} LogIsOps<T(!new)>(start: map<string, T>, log: seq<map<string, T>>, from: nat, n: nat,
                                             owner: T -> string, u: string)
    returns (ops: seq<Op<T>>)
    requires from <= n <= |log| && forall i :: 0 <= i < |log| ==> OneCall(Before(start, log, i), log[i])
    requires forall i :: from <= i < n ==> Call(Before(start, log, from), log[i], owner, u)
    ensures OwnOps(Before(start, log, from), ops, owner, u) &&
      ApplyAll(Before(start, log, from), ops) == Before(start, log, n)
    decreases n
  {
    hide OneCall, Call, OwnOp, Apply;
    if n == from {
      ops := [];
    } else {
      var earlier := LogIsOps(start, log, from, n - 1, owner, u);
      var a, b, c := Before(start, log, from), Before(start, log, n - 1), log[n - 1];
      if n - 1 == from {
        assert a == b;
      } else {
        CallBack(a, b, c, owner, u);
      }
      assert Call(b, c, owner, u) && OneCall(b, c);
      var last := EffectIsOwn(b, c, owner, u);
      OpsSplit(a, earlier, last, owner, u);
      ops := earlier + last;
    }
  }

  /** What a list call for rows of `u` answers depends on nothing but the rows of `u`. */
  lemma AnswersFromPart<T(!new)>(listed: seq<(string, T)>, rows: map<string, T>, f: T -> bool, owner: T -> string,
                                 u: string)
    requires forall x :: f(x) ==> owner(x) == u
    ensures Enumerates(listed, rows, f) <==> Enumerates(listed, Part(rows, owner, u), f)
  {
    var part := Part(rows, owner, u);
    assert forall id :: (id in rows && f(rows[id])) <==> (id in part && f(part[id]));
    assert forall id :: id in part ==> id in rows && part[id] == rows[id];
    if Enumerates(listed, rows, f) {
      forall id | id in part && f(part[id]) ensures exists i :: 0 <= i < |listed| && listed[i] == (id, part[id]) {
        var i :| 0 <= i < |listed| && listed[i] == (id, rows[id]);
      }
    }
    if Enumerates(listed, part, f) {
      forall id | id in rows && f(rows[id]) ensures exists i :: 0 <= i < |listed| && listed[i] == (id, rows[id]) {
        var i :| 0 <= i < |listed| && listed[i] == (id, part[id]);
      }
    }
  }

  // ---------------------------------------------------------------- whole interleavings

  /** Calls of several owners, one after another. */
  ghost predicate Interleaving<T(!new)>(states: seq<map<string, T>>, actors: seq<string>, owner: T -> string) {
    |states| == |actors| + 1 && forall i :: 0 <= i < |actors| ==> Call(states[i], states[i + 1], owner, actors[i])
  }

  /** What `u` sees: its rows at the start and after each call of its own. */
  ghost function Solo<T>(states: seq<map<string, T>>, actors: seq<string>, owner: T -> string,
                         u: string): seq<map<string, T>>
    requires |states| == |actors| + 1
  {
    if actors == [] then [Part(states[0], owner, u)]
    else
      var n := |actors| - 1;
      var earlier := Solo(states[..n + 1], actors[..n], owner, u);
      if actors[n] == u then earlier + [Part(states[n + 1], owner, u)] else earlier
  }

  /** Every call of `u` starts from the rows its previous call left, as if nobody else had been there. */
  lemma {:induction false} Alone<T(!new)>(states: seq<map<string, T>>, actors: seq<string>, owner: T -> string,
                                          u: string)
    requires Interleaving(states, actors, owner)
    ensures var solo := Solo(states, actors, owner, u);
      && |solo| == 1 + multiset(actors)[u] && solo[0] == Part(states[0], owner, u)
      && solo[|solo| - 1] == Part(states[|actors|], owner, u)
  {
    if actors != [] {
      var n := |actors| - 1;
      assert actors == actors[..n] + [actors[n]];
      Alone(states[..n + 1], actors[..n], owner, u);
      assert Call(states[n], states[n + 1], owner, actors[n]);
      if actors[n] != u {
        OthersBlind(states[n], states[n + 1], owner, actors[n], u);
      }
    }
  }

  /** The rows of all owners together are the state. */
  lemma PartsDetermine<T(!new)>(a: map<string, T>, b: map<string, T>, owner: T -> string)
    requires forall u :: Part(a, owner, u) == Part(b, owner, u)
    ensures a == b
  {
    forall id | id in a ensures id in b && b[id] == a[id] {
      assert id in Part(a, owner, owner(a[id])) && id in Part(b, owner, owner(a[id]));
    }
    forall id | id in b ensures id in a {
      assert id in Part(b, owner, owner(b[id])) && id in Part(a, owner, owner(b[id]));
    }
  }

  /** Two interleavings in which everybody sees the same end in the same state, however they are ordered. */
  lemma OrderDoesNotMatter<T(!new)>(xs: seq<map<string, T>>, actors: seq<string>, ys: seq<map<string, T>>,
                                    others: seq<string>, owner: T -> string)
    requires Interleaving(xs, actors, owner) && Interleaving(ys, others, owner)
    requires forall u :: Solo(xs, actors, owner, u) == Solo(ys, others, owner, u)
    ensures xs[|actors|] == ys[|others|]
  {
    hide Interleaving, Solo;
    LastSeen(xs, actors, owner, "");
    LastSeen(ys, others, owner, "");
    forall u ensures Part(xs[|actors|], owner, u) == Part(ys[|others|], owner, u) {
      LastSeen(xs, actors, owner, u);
      LastSeen(ys, others, owner, u);
    }
    PartsDetermine(xs[|actors|], ys[|others|], owner);
  }

  lemma LastSeen<T(!new)>(states: seq<map<string, T>>, actors: seq<string>, owner: T -> string, u: string)
    requires Interleaving(states, actors, owner)
    ensures |states| == |actors| + 1 && Solo(states, actors, owner, u) != []
    ensures var solo := Solo(states, actors, owner, u); solo[|solo| - 1] == Part(states[|actors|], owner, u)
  {
    Alone(states, actors, owner, u);
  }

  // ---------------------------------------------------------------- the controller's runs

  function LbOf(): P.CloudPool -> string { (p: P.CloudPool) => p.lb }
  function ListenerOwner(who: string -> string): L.Listener -> string { (x: L.Listener) => who(x.pool) }
  function MonitorOwner(who: string -> string): M.Monitor -> string { (x: M.Monitor) => who(x.pool) }
  function MemberOwner(who: string -> string): B.Member -> string { (x: B.Member) => who(x.pool) }

  ghost predicate CallsOf<T(!new)>(a: Moment<T>, b: Moment<T>, owner: T -> string, u: string) {
    Call(a.rows, b.rows, owner, u) && forall i :: |a.log| <= i < |b.log| ==> Call(a.rows, b.log[i], owner, u)
  }

  lemma FramedCalls<T(!new)>(a: Moment<T>, b: Moment<T>, f: T -> bool, owner: T -> string, u: string)
    requires Framed(a, b, f) && forall x :: f(x) ==> owner(x) == u
    ensures CallsOf(a, b, owner, u)
  {
    FramedWider(a, b, f, OwnedBy(owner, u));
  }

  /** A run for the load balancer `uuid` consists of calls of that owner on every table, where children belong to
      the owner of their pool. */
  lemma RunsAreCalls(a: World, b: World, uuid: string, wanted: seq<string>, who: string -> string)
    requires Isolated(a, b, uuid, wanted) && forall id :: id in b.pools.rows ==> who(id) == b.pools.rows[id].lb
    ensures CallsOf(a.pools, b.pools, LbOf(), uuid)
    ensures CallsOf(a.scene.listeners, b.scene.listeners, ListenerOwner(who), uuid)
    ensures CallsOf(a.scene.monitors, b.scene.monitors, MonitorOwner(who), uuid)
    ensures CallsOf(a.scene.members, b.scene.members, MemberOwner(who), uuid)
  {
    hide Framed, CallsOf, Singles, AlwaysSingles;
    var ids :| Owns(b.pools.rows, uuid, ids) && Within(a.scene, b.scene, ids);
    FramedCalls(a.pools, b.pools, P.OfLb(uuid), LbOf(), uuid);
    FramedCalls(a.scene.listeners, b.scene.listeners, ListenersOf(ids), ListenerOwner(who), uuid);
    FramedCalls(a.scene.monitors, b.scene.monitors, MonitorsOf(ids), MonitorOwner(who), uuid);
    FramedCalls(a.scene.members, b.scene.members, MembersOf(ids), MemberOwner(who), uuid);
  }

  /** The calls between two moments, as data: each one on a row of `u`. */
  lemma MomentOps<T(!new)>(a: Moment<T>, b: Moment<T>, owner: T -> string, u: string) returns (ops: seq<Op<T>>)
    requires ByCalls(a, b) && CallsOf(a, b, owner, u)
    ensures OwnOps(a.rows, ops, owner, u) && ApplyAll(a.rows, ops) == b.rows
  {
    hide OneCall, Call, OwnOps, ApplyAll;
    var since := b.log[|a.log|..];
    forall i | 0 <= i < |since| ensures Call(a.rows, since[i], owner, u) {
      assert since[i] == b.log[|a.log| + i];
    }
    ops := LogIsOps(a.rows, since, 0, |since|, owner, u);
  }

  /** What a run for the load balancer `uuid` does to pools, listeners, monitors and members is a sequence of calls on
      rows of that load balancer; so by `RunsCommute` runs for different load balancers commute, table by table. */
  lemma RunsAreOps(a: World, b: World, uuid: string, wanted: seq<string>, who: string -> string)
    returns (pools: seq<Op<P.CloudPool>>, listeners: seq<Op<L.Listener>>, monitors: seq<Op<M.Monitor>>,
             members: seq<Op<B.Member>>)
    requires Isolated(a, b, uuid, wanted) && forall id :: id in b.pools.rows ==> who(id) == b.pools.rows[id].lb
    ensures OwnOps(a.pools.rows, pools, LbOf(), uuid) && ApplyAll(a.pools.rows, pools) == b.pools.rows
    ensures OwnOps(a.scene.listeners.rows, listeners, ListenerOwner(who), uuid) &&
      ApplyAll(a.scene.listeners.rows, listeners) == b.scene.listeners.rows
    ensures OwnOps(a.scene.monitors.rows, monitors, MonitorOwner(who), uuid) &&
      ApplyAll(a.scene.monitors.rows, monitors) == b.scene.monitors.rows
    ensures OwnOps(a.scene.members.rows, members, MemberOwner(who), uuid) &&
      ApplyAll(a.scene.members.rows, members) == b.scene.members.rows
  {
    RunsAreCalls(a, b, uuid, wanted, who);
    assert ByCalls(a.pools, b.pools) && ByScene(a.scene, b.scene);
    hide Isolated, CallsOf, ByCalls, OwnOps, ApplyAll;
    pools := MomentOps(a.pools, b.pools, LbOf(), uuid);
    listeners := MomentOps(a.scene.listeners, b.scene.listeners, ListenerOwner(who), uuid);
    monitors := MomentOps(a.scene.monitors, b.scene.monitors, MonitorOwner(who), uuid);
    members := MomentOps(a.scene.members, b.scene.members, MemberOwner(who), uuid);
  }

  /** Hence a run never changes a pool, listener, monitor or member of another load balancer. */
  lemma OthersUntouched(a: World, b: World, env: Nodes.Environment, outcome: Outcome, who: string -> string,
                        other: string)
    requires RunStep(a, b, env, outcome) && (forall id :: id in b.pools.rows ==> who(id) == b.pools.rows[id].lb)
    requires Recorded(a.manifest) ==> a.manifest.value.spec.uuid != other
    ensures Part(a.pools.rows, LbOf(), other) == Part(b.pools.rows, LbOf(), other)
    ensures Part(a.scene.listeners.rows, ListenerOwner(who), other) ==
            Part(b.scene.listeners.rows, ListenerOwner(who), other)
    ensures Part(a.scene.monitors.rows, MonitorOwner(who), other) ==
            Part(b.scene.monitors.rows, MonitorOwner(who), other)
    ensures Part(a.scene.members.rows, MemberOwner(who), other) == Part(b.scene.members.rows, MemberOwner(who), other)
  {
    hide Leaves, Quiet, Isolated, Progressed, Call;
    if Recorded(a.manifest) {
      var u := a.manifest.value.spec.uuid;
      RunsAreCalls(a, b, u, a.manifest.value.spec.floatingIPs, who);
      OthersBlind(a.pools.rows, b.pools.rows, LbOf(), u, other);
      OthersBlind(a.scene.listeners.rows, b.scene.listeners.rows, ListenerOwner(who), u, other);
      OthersBlind(a.scene.monitors.rows, b.scene.monitors.rows, MonitorOwner(who), u, other);
      OthersBlind(a.scene.members.rows, b.scene.members.rows, MemberOwner(who), u, other);
    }
  }
}
