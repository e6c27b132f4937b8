/** `ensureLoadBalancerListener`: one listener per pool, recreated or patched one field at a time. */
module Listeners {
  import opened Api
  import opened Orders
  import opened Tables
  import opened Patching

  datatype Listener = Listener(
    pool: string, name: string, protocol: string, port: int,
    allowedCIDRs: seq<string>, clientMS: int, connectMS: int, memberMS: int)

  type Rows = map<string, Listener>

  function OfPool(pool: string): Listener -> bool {
    (l: Listener) => l.pool == pool
  }

  // ---------------------------------------------------------------- patch semantics

  /** A patch leaves a field alone if the value sent is empty or zero. */
  function PatchCidrs(row: Listener, v: seq<string>): Listener { if v == [] then row else row.(allowedCIDRs := v) }
  function PatchClient(row: Listener, v: int): Listener { if v == 0 then row else row.(clientMS := v) }
  function PatchConnect(row: Listener, v: int): Listener { if v == 0 then row else row.(connectMS := v) }
  function PatchMember(row: Listener, v: int): Listener { if v == 0 then row else row.(memberMS := v) }

  ghost predicate SameCidrs(a: seq<string>, b: seq<string>) {
    multiset(a) == multiset(b)
  }

  /** Replacing all compared fields at once, under the same rule. */
  ghost function Merge(row: Listener, want: Listener): Listener {
    row.(allowedCIDRs := if SameCidrs(row.allowedCIDRs, want.allowedCIDRs) || want.allowedCIDRs == []
                         then row.allowedCIDRs else want.allowedCIDRs,
         clientMS := OrDefault(want.clientMS, row.clientMS),
         connectMS := OrDefault(want.connectMS, row.connectMS),
         memberMS := OrDefault(want.memberMS, row.memberMS))
  }

  /** The listener agrees with the request on every compared field whose wanted value is not zero. */
  ghost predicate Agrees(row: Listener, want: Listener) {
    && row.pool == want.pool && row.protocol == want.protocol && row.port == want.port
    && (want.allowedCIDRs != [] ==> SameCidrs(row.allowedCIDRs, want.allowedCIDRs))
    && (want.clientMS != 0 ==> row.clientMS == want.clientMS)
    && (want.connectMS != 0 ==> row.connectMS == want.connectMS)
    && (want.memberMS != 0 ==> row.memberMS == want.memberMS)
  }

  /** The number of fields that differ, that is, of patch calls to make. */
  ghost function Differences(row: Listener, want: Listener): nat {
    One(!SameCidrs(row.allowedCIDRs, want.allowedCIDRs)) + One(row.clientMS != want.clientMS)
    + One(row.connectMS != want.connectMS) + One(row.memberMS != want.memberMS)
  }

  /** No field differs from a zero or empty wanted value, which a patch could not bring about. */
  ghost predicate Effective(row: Listener, want: Listener) {
    && (want.allowedCIDRs == [] ==> row.allowedCIDRs == [])
    && (want.clientMS == 0 ==> row.clientMS == 0)
    && (want.connectMS == 0 ==> row.connectMS == 0)
    && (want.memberMS == 0 ==> row.memberMS == 0)
  }

  /** Once patched, the listener agrees with the request, a further run changes nothing, and it makes no
      call exactly when no zero-wanted field differs. */
  lemma MergeSettles(row: Listener, want: Listener)
    ensures Merge(Merge(row, want), want) == Merge(row, want)
    ensures row.pool == want.pool && SameSocket(row, want) ==> Agrees(Merge(row, want), want)
    ensures Differences(Merge(row, want), want) == 0 <==> Effective(row, want)
  {
    assert want.allowedCIDRs == [] ==> (SameCidrs(row.allowedCIDRs, []) <==> row.allowedCIDRs == []) by {
      assert |multiset(row.allowedCIDRs)| == |row.allowedCIDRs|;
    }
  }

  lemma SelfAgrees(want: Listener)
    ensures Merge(want, want) == want && Differences(want, want) == 0
  {
  }

  // ---------------------------------------------------------------- the plan

  /** Lines 565-583: the requested listener, with its allowed networks sorted. */
  function WantedListener(key: NamespacedName, ours: Pool, theirs: string): Listener {
    Listener(theirs, CloudName(key) + "-" + Decimal(ours.frontend.port),
             WireListenerProtocol(OrDefaultText(ours.frontend.protocol, "TCP")), ours.frontend.port,
             InsertionSort(Compare, ours.frontend.allowedCIDRs),
             Quotient(FrontendTimeout(ours.frontend), NANOS_PER_MILLI),
             Quotient(ConnectTimeout(ours.backend), NANOS_PER_MILLI),
             Quotient(BackendTimeout(ours.backend), NANOS_PER_MILLI))
  }

  /** Lines 616-658: the compared fields, in order. */
  function ListenerFields(want: Listener): seq<Field<Listener>> {
    [ Field((row: Listener) => InsertionSort(Compare, row.allowedCIDRs) != want.allowedCIDRs,
            (row: Listener) => PatchCidrs(row, want.allowedCIDRs)),
      Field((row: Listener) => row.clientMS != want.clientMS, (row: Listener) => PatchClient(row, want.clientMS)),
      Field((row: Listener) => row.connectMS != want.connectMS, (row: Listener) => PatchConnect(row, want.connectMS)),
      Field((row: Listener) => row.memberMS != want.memberMS, (row: Listener) => PatchMember(row, want.memberMS)) ]
  }

  predicate SameSocket(row: Listener, want: Listener) {
    row.protocol == want.protocol && row.port == want.port
  }

  function ListenerPlan(want: Listener): Plan<Listener> {
    Plan(OfPool(want.pool), want, row => !SameSocket(row, want), ListenerFields(want))
  }

  /** Sorting the actual networks and comparing them with the sorted wanted ones. */
  lemma SortedMatch(actual: seq<string>, wanted: seq<string>)
    requires Sorted(Compare, wanted)
    ensures InsertionSort(Compare, actual) == wanted <==> SameCidrs(actual, wanted)
  {
    CompareOrdering();
    InsertionSortSorted(Compare, actual);
    if SameCidrs(actual, wanted) {
      SortedUnique(Compare, InsertionSort(Compare, actual), wanted);
    }
  }

  /** The listener with the first `n` of its compared fields replaced. */
  ghost function Partly(row: Listener, goal: Listener, n: nat): Listener {
    row.(allowedCIDRs := if n >= 1 then goal.allowedCIDRs else row.allowedCIDRs,
         clientMS := if n >= 2 then goal.clientMS else row.clientMS,
         connectMS := if n >= 3 then goal.connectMS else row.connectMS,
         memberMS := if n >= 4 then goal.memberMS else row.memberMS)
  }

  lemma OneField(row: Listener, want: Listener, n: nat)
    requires Sorted(Compare, want.allowedCIDRs) && n < 4
    ensures var f := ListenerFields(want)[n];
            var x := Partly(row, Merge(row, want), n);
            Partly(row, Merge(row, want), n + 1) == if f.differs(row) then f.patch(x) else x
  {
    SortedMatch(row.allowedCIDRs, want.allowedCIDRs);
    hide InsertionSort, SameCidrs, Sorted;
  }

  /** Every stage of patching replaces some of the fields; the last one replaces all. */
  lemma {:induction false} StageIs(row: Listener, want: Listener, n: nat)
    requires Sorted(Compare, want.allowedCIDRs) && n <= 4
    ensures Stage(ListenerFields(want), row, n) == Partly(row, Merge(row, want), n)
  {
    hide Merge, Partly, InsertionSort;
    if n == 0 {
      assert Partly(row, Merge(row, want), 0) == row by { PartlyNone(row, Merge(row, want)); }
    } else {
      StageIs(row, want, n - 1);
      OneField(row, want, n - 1);
    }
  }

  lemma PartlyNone(row: Listener, goal: Listener)
    ensures Partly(row, goal, 0) == row
  {
  }

  /** Interrupted anywhere, the work leads to the same listener when it is resumed. */
  lemma PartlyResumes(row: Listener, want: Listener, n: nat)
    ensures var x := Partly(row, Merge(row, want), n);
            Merge(x, want) == Merge(row, want) && x.pool == row.pool && (SameSocket(x, want) <==> SameSocket(row, want))
  {
  }

  /** The number of calls is the number of differing fields, and they replace the whole record. */
  lemma WholeReplacement(row: Listener, want: Listener)
    requires Sorted(Compare, want.allowedCIDRs)
    ensures Goal(ListenerFields(want), row) == Merge(row, want)
    ensures Calls(ListenerFields(want), row, 4) == Differences(row, want)
  {
    StageIs(row, want, 4);
    CallsAre(row, want);
    hide ListenerFields, Stage, Calls, InsertionSort;
  }

  lemma CallsAre(row: Listener, want: Listener)
    requires Sorted(Compare, want.allowedCIDRs)
    ensures Calls(ListenerFields(want), row, 4) == Differences(row, want)
  {
    SortedMatch(row.allowedCIDRs, want.allowedCIDRs);
    hide InsertionSort, SameCidrs;
    var f := ListenerFields(want);
    assert Calls(f, row, 2) == One(f[0].differs(row)) + One(f[1].differs(row));
  }

  lemma ListenerPlanSound(want: Listener)
    requires Sorted(Compare, want.allowedCIDRs)
    ensures Sound(ListenerPlan(want))
  {
    var p := ListenerPlan(want);
    hide Stage, Merge, Goal, Partly, InsertionSort, Differences;
    WholeReplacement(want, want);
    SelfAgrees(want);
    forall row, n | 0 <= n <= |p.fields| && p.mine(row) && !p.recreate(row) ensures Resumes(p, row, n) {
      var x := Stage(p.fields, row, n);
      StageIs(row, want, n);
      PartlyResumes(row, want, n);
      WholeReplacement(row, want);
      WholeReplacement(x, want);
    }
  }

  lemma WantedSorted(key: NamespacedName, ours: Pool, theirs: string)
    ensures Sorted(Compare, WantedListener(key, ours, theirs).allowedCIDRs)
    ensures multiset(WantedListener(key, ours, theirs).allowedCIDRs) == multiset(ours.frontend.allowedCIDRs)
  {
    CompareOrdering();
    InsertionSortSorted(Compare, ours.frontend.allowedCIDRs);
  }

  /** A wire value holds the whole units of a duration, or of its default if it is not set. */
  ghost predicate WholeUnits(wire: int, duration: int, default: int, nanos: int)
    requires nanos > 0
  {
    && (duration == 0 ==> wire == default)
    && (duration > 0 ==> wire * nanos <= duration < (wire + 1) * nanos)
  }

  /** What the request asks for: the frontend's port and networks, 50 s, 5 s and 50 s unless set otherwise; a timeout is
      zero on the wire exactly if it is set to less than a millisecond. */
  lemma WantedOnTheWire(key: NamespacedName, ours: Pool, theirs: string)
    ensures var want := WantedListener(key, ours, theirs);
      && want.pool == theirs
      && want.protocol == (if ours.frontend.protocol in {"", "TCP"} then "tcp" else ours.frontend.protocol)
      && want.name == "appuio_io_loadbalancer_controller-" + key.namespace + "-" + key.name + "-" + Decimal(want.port)
      && want.port == ours.frontend.port && multiset(want.allowedCIDRs) == multiset(ours.frontend.allowedCIDRs)
      && WholeUnits(want.clientMS, ours.frontend.dataTimeout, 50_000, NANOS_PER_MILLI)
      && WholeUnits(want.connectMS, ours.backend.connectTimeout, 5_000, NANOS_PER_MILLI)
      && WholeUnits(want.memberMS, ours.backend.dataTimeout, 50_000, NANOS_PER_MILLI)
      && (want.clientMS == 0 <==>
            ours.frontend.dataTimeout != 0 && -NANOS_PER_MILLI < ours.frontend.dataTimeout < NANOS_PER_MILLI)
      && (want.connectMS == 0 <==>
            ours.backend.connectTimeout != 0 && -NANOS_PER_MILLI < ours.backend.connectTimeout < NANOS_PER_MILLI)
      && (want.memberMS == 0 <==>
            ours.backend.dataTimeout != 0 && -NANOS_PER_MILLI < ours.backend.dataTimeout < NANOS_PER_MILLI)
  {
    hide InsertionSort;
  }

  /** What the listener of a pool becomes. */
  ghost function Replaced(row: Listener, want: Listener): Listener {
    if SameSocket(row, want) then Merge(row, want) else want
  }

  /** `ensureLoadBalancerListener`.  `goal` is the listener the pool is to have: every state left by a call
      leads to it, and the finished one has it.  It agrees with the request, and if the listener could be
      patched, there is one call per differing field. */
  method EnsureListener(t: Table<Listener>, key: NamespacedName, ours: Pool, theirs: string)
    returns (ok: bool, id: string, ghost goal: Listener, ghost steps: seq<Rows>)
    requires t.Valid()
    modifies t
    ensures t.Valid() && old(t.minted) <= t.minted && t.log == old(t.log) + steps
    ensures AtMostOne(old(t.rows), OfPool(theirs)) ==>
      var p := ListenerPlan(WantedListener(key, ours, theirs));
      Leads(p, old(t.rows), goal) && Kept(p, old(t.rows), t.rows, goal) && AllKept(p, old(t.rows), steps, goal)
    ensures !AtMostOne(old(t.rows), OfPool(theirs)) ==> !ok && steps == []
    ensures steps == [] ==> t.rows == old(t.rows)
    ensures t.failures >= old(t.failures) &&
      (t.failures == old(t.failures) ==> ok || !AtMostOne(old(t.rows), OfPool(theirs)))
    ensures ok ==>
      Only(t.rows, OfPool(theirs), id) && t.rows[id] == goal && Agrees(goal, WantedListener(key, ours, theirs))
    ensures (forall i :: i in old(t.rows) ==> old(t.rows)[i].pool != theirs) ==>
      goal == WantedListener(key, ours, theirs)
    ensures forall i :: Only(old(t.rows), OfPool(theirs), i) ==>
      var row, want := old(t.rows)[i], WantedListener(key, ours, theirs);
      && goal == Replaced(row, want)
      && (SameSocket(row, want) ==> |steps| <= Differences(row, want) && (ok ==> |steps| == Differences(row, want)))
  {
    var want := WantedListener(key, ours, theirs);
    WantedSorted(key, ours, theirs);
    var p := ListenerPlan(want);
    ListenerPlanSound(want);
    hide Traced, WantedListener, ListenerFields, Sound, Leads, Kept, AllKept, Sorted, AtMostOne, Merge, Agrees, Goal,
      Differences, Calls;
    goal := want;
    ghost var before := t.rows;
    if AtMostOne(before, p.mine) {
      OneGoal(p, before);
      goal :| Leads(p, before, goal);
      GoalIs(before, want, goal);
    }
    assert p.mine == OfPool(theirs) by { WantedOf(key, ours, theirs); }
    ok, id, steps := EnsureOne(t, p, goal);
    forall i | Only(before, OfPool(theirs), i) ensures AtMostOne(before, OfPool(theirs)) &&
      Calls(p.fields, before[i], |p.fields|) == Differences(before[i], want) {
      WholeReplacement(before[i], want);
      OnlyOne(before, OfPool(theirs), i);
    }
  }

  lemma WantedOf(key: NamespacedName, ours: Pool, theirs: string)
    ensures WantedListener(key, ours, theirs).pool == theirs
  {
  }

  lemma GoalIs(before: Rows, want: Listener, goal: Listener)
    requires Sorted(Compare, want.allowedCIDRs) && Leads(ListenerPlan(want), before, goal)
    ensures Agrees(goal, want)
    ensures (forall i :: i in before ==> before[i].pool != want.pool) ==> goal == want
    ensures forall i :: Only(before, OfPool(want.pool), i) ==> goal == Replaced(before[i], want)
  {
    var p := ListenerPlan(want);
    hide ListenerFields, Merge, Differences;
    if i :| i in before && p.mine(before[i]) {
      assert Final(p, before[i]) == goal;
      WholeReplacement(before[i], want);
      MergeSettles(before[i], want);
    }
  }
}
