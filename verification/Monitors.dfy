/** `ensureLoadBalancerHealthMonitor`: one health monitor per pool, recreated or patched one field at a time. */
module Monitors {
  import opened Api
  import opened Orders
  import opened Tables
  import opened Patching

  datatype Http = Http(httpMethod: string, path: string, version: string, host: Option<string>, codes: seq<string>)

  datatype Monitor = Monitor(
    pool: string, kind: string, delayS: int, timeoutS: int, up: int, down: int, http: Option<Http>)

  type Rows = map<string, Monitor>

  function OfPool(pool: string): Monitor -> bool {
    (m: Monitor) => m.pool == pool
  }

  predicate IsHttp(kind: string) {
    kind == "http" || kind == "https"
  }

  /** Lines 386-410: the requested monitor.  The status codes are sent as specified, without the default
      that the getter of the specification would supply. */
  function WantedMonitor(ours: Pool, theirs: string): Monitor {
    var h := ours.backend.health;
    var kind := WireMonitorType(OrDefaultText(h.kind, "TCP"));
    Monitor(theirs, kind, Quotient(Delay(h), NANOS_PER_SECOND), Quotient(Timeout(h), NANOS_PER_SECOND),
            UpThreshold(h), DownThreshold(h),
            if IsHttp(kind) then
              Some(Http(OrDefaultText(h.http.httpMethod, "GET"), OrDefaultText(h.http.path, "/"),
                        OrDefaultText(h.http.version, "1.1"),
                        if h.http.host == "" then None else Some(h.http.host), h.http.statusCodes))
            else None)
  }

  /** A request as the specification asks for it, spelled out. */
  ghost predicate AsSpecified(want: Monitor, ours: Pool, theirs: string) {
    var h := ours.backend.health;
    && want.pool == theirs
    && want.kind == (if h.kind == "" || h.kind == "TCP" then "tcp"
                     else if h.kind == "Ping" then "ping"
                     else if h.kind == "HTTP" then "http"
                     else if h.kind == "HTTPS" then "https"
                     else if h.kind == "TLSHello" then "tls-hello"
                     else h.kind)
    && want.delayS == (if h.delay == 0 then 2 else Quotient(h.delay, 1_000_000_000))
    && want.timeoutS == (if h.timeout == 0 then 1 else Quotient(h.timeout, 1_000_000_000))
    && want.up == (if h.successThreshold == 0 then 2 else h.successThreshold)
    && want.down == (if h.failureThreshold == 0 then 3 else h.failureThreshold)
    && (want.http.Some? <==> want.kind == "http" || want.kind == "https")
    && (want.http.Some? ==> HttpAsSpecified(want.http.value, h.http))
  }

  ghost predicate HttpAsSpecified(want: Http, h: HttpCheck) {
    && want.httpMethod == (if h.httpMethod == "" then "GET" else h.httpMethod)
    && want.path == (if h.path == "" then "/" else h.path)
    && want.version == (if h.version == "" then "1.1" else h.version)
    && want.host == (if h.host == "" then None else Some(h.host))
    && want.codes == h.statusCodes
  }

  /** The request is the one the specification asks for, in every field. */
  lemma WantedMonitorExactly(want: Monitor, ours: Pool, theirs: string)
    ensures want == WantedMonitor(ours, theirs) <==> AsSpecified(want, ours, theirs)
  {
  }

  /** What every request satisfies. */
  predicate Request(want: Monitor) {
    && (want.http.Some? <==> IsHttp(want.kind))
    && (want.http.Some? ==> want.http.value.httpMethod != "" && want.http.value.host != Some(""))
  }

  /** The settings a monitor is compared by: a missing section counts as an empty one (lines 485-487). */
  function Section(m: Monitor): Http {
    if m.http.Some? then m.http.value else Http("", "", "", None, [])
  }

  // ---------------------------------------------------------------- patch semantics

  function PatchDelay(row: Monitor, v: int): Monitor { if v == 0 then row else row.(delayS := v) }
  function PatchTimeout(row: Monitor, v: int): Monitor { if v == 0 then row else row.(timeoutS := v) }
  function PatchUp(row: Monitor, v: int): Monitor { if v == 0 then row else row.(up := v) }
  function PatchDown(row: Monitor, v: int): Monitor { if v == 0 then row else row.(down := v) }

  /** A patch of the HTTP section creates it if it is missing. */
  function PatchHttp(row: Monitor, change: Http -> Http): Monitor {
    row.(http := Some(change(Section(row))))
  }

  function NewMethod(h: Http, v: string): Http { if v == "" then h else h.(httpMethod := v) }
  function NewPath(h: Http, v: string): Http { if v == "" then h else h.(path := v) }
  function NewVersion(h: Http, v: string): Http { if v == "" then h else h.(version := v) }
  function NewHost(h: Http, v: Option<string>): Http { if v == None || v == Some("") then h else h.(host := v) }
  function NewCodes(h: Http, v: seq<string>): Http { if v == [] then h else h.(codes := v) }

  /** Replacing all fields of the section at once, under the rule that zero means unchanged. */
  ghost function MergeHttp(h: Http, want: Http): Http {
    Http(OrDefaultText(want.httpMethod, h.httpMethod), OrDefaultText(want.path, h.path),
         OrDefaultText(want.version, h.version),
         if want.host == None then h.host else want.host,
         if multiset(h.codes) == multiset(want.codes) || want.codes == [] then h.codes else want.codes)
  }

  ghost function Merge(row: Monitor, want: Monitor): Monitor {
    row.(delayS := OrDefault(want.delayS, row.delayS), timeoutS := OrDefault(want.timeoutS, row.timeoutS),
         up := OrDefault(want.up, row.up), down := OrDefault(want.down, row.down),
         http := if want.http.Some? then Some(MergeHttp(Section(row), want.http.value)) else row.http)
  }

  ghost predicate AgreesHttp(h: Http, want: Http) {
    && (want.httpMethod != "" ==> h.httpMethod == want.httpMethod)
    && (want.path != "" ==> h.path == want.path)
    && (want.version != "" ==> h.version == want.version)
    && (want.host != None ==> h.host == want.host)
    && (want.codes != [] ==> multiset(h.codes) == multiset(want.codes))
  }

  /** The monitor agrees with the request on every compared field whose wanted value is not zero. */
  ghost predicate Agrees(row: Monitor, want: Monitor) {
    && row.pool == want.pool && row.kind == want.kind
    && (want.delayS != 0 ==> row.delayS == want.delayS) && (want.timeoutS != 0 ==> row.timeoutS == want.timeoutS)
    && (want.up != 0 ==> row.up == want.up) && (want.down != 0 ==> row.down == want.down)
    && (want.http.Some? ==> row.http.Some? && AgreesHttp(row.http.value, want.http.value))
  }

  ghost function DifferencesHttp(h: Http, want: Http): nat {
    One(h.httpMethod != want.httpMethod) + One(h.path != want.path) + One(h.version != want.version)
    + One(h.host != want.host) + One(multiset(h.codes) != multiset(want.codes))
  }

  ghost function CommonDifferences(row: Monitor, want: Monitor): nat {
    One(row.delayS != want.delayS) + One(row.timeoutS != want.timeoutS)
    + One(row.up != want.up) + One(row.down != want.down)
  }

  /** The number of fields that differ, that is, of patch calls to make. */
  ghost function Differences(row: Monitor, want: Monitor): nat {
    CommonDifferences(row, want)
    + if want.http.Some? then DifferencesHttp(Section(row), want.http.value) else 0
  }

  ghost predicate EffectiveHttp(h: Http, want: Http) {
    && (want.httpMethod == "" ==> h.httpMethod == "") && (want.path == "" ==> h.path == "")
    && (want.version == "" ==> h.version == "") && (want.host == None ==> h.host == None) &&
      (want.codes == [] ==> h.codes == [])
  }

  /** No field differs from a zero or empty wanted value, which a patch could not bring about. */
  ghost predicate Effective(row: Monitor, want: Monitor) {
    && (want.delayS == 0 ==> row.delayS == 0) && (want.timeoutS == 0 ==> row.timeoutS == 0)
    && (want.up == 0 ==> row.up == 0) && (want.down == 0 ==> row.down == 0)
    && (want.http.Some? ==> EffectiveHttp(Section(row), want.http.value))
  }

  lemma HttpSettles(h: Http, want: Http)
    ensures MergeHttp(MergeHttp(h, want), want) == MergeHttp(h, want) && AgreesHttp(MergeHttp(h, want), want)
    ensures DifferencesHttp(MergeHttp(h, want), want) == 0 <==> EffectiveHttp(h, want)
  {
    assert want.codes == [] ==> (multiset(h.codes) == multiset([]) <==> h.codes == []) by {
      assert |multiset(h.codes)| == |h.codes|;
    }
  }

  /** Once patched, the monitor agrees with the request, a further run changes nothing, and it makes no call
      exactly when no zero-wanted field differs. */
  lemma MergeSettles(row: Monitor, want: Monitor)
    ensures Merge(Merge(row, want), want) == Merge(row, want)
    ensures row.pool == want.pool && row.kind == want.kind ==> Agrees(Merge(row, want), want)
    ensures Differences(Merge(row, want), want) == 0 <==> Effective(row, want)
  {
    if want.http.Some? {
      HttpSettles(Section(row), want.http.value);
      hide MergeHttp, DifferencesHttp, EffectiveHttp, AgreesHttp;
    }
  }

  lemma SelfAgrees(want: Monitor)
    ensures Merge(want, want) == want && Differences(want, want) == 0
  {
  }

  /** A specification without status codes never settles once the cloud reports some: every run makes a
      patch call, and none changes the codes. */
  lemma UnsetCodesNeverSettle(row: Monitor, ours: Pool, theirs: string)
    requires ours.backend.health.http.statusCodes == [] && Section(row).codes != []
    requires WantedMonitor(ours, theirs).http.Some?
    ensures Section(Merge(row, WantedMonitor(ours, theirs))).codes == Section(row).codes
    ensures Differences(Merge(row, WantedMonitor(ours, theirs)), WantedMonitor(ours, theirs)) > 0
  {
    MergeSettles(row, WantedMonitor(ours, theirs));
  }

  /** The zero case: a delay or timeout that is set, but to less than a second. */
  lemma ZeroOnTheWire(ours: Pool, theirs: string)
    ensures var h, want := ours.backend.health, WantedMonitor(ours, theirs);
            && (h.delay > 0 ==> want.delayS * NANOS_PER_SECOND <= h.delay < (want.delayS + 1) * NANOS_PER_SECOND)
            && (h.timeout > 0 ==>
                  want.timeoutS * NANOS_PER_SECOND <= h.timeout < (want.timeoutS + 1) * NANOS_PER_SECOND)
            && (h.delay == 0 ==> want.delayS == 2) && (h.timeout == 0 ==> want.timeoutS == 1)
            && want.up == (if h.successThreshold == 0 then 2 else h.successThreshold)
            && want.down == (if h.failureThreshold == 0 then 3 else h.failureThreshold)
            && (want.delayS == 0 <==> h.delay != 0 && -NANOS_PER_SECOND < h.delay < NANOS_PER_SECOND)
            && (want.timeoutS == 0 <==> h.timeout != 0 && -NANOS_PER_SECOND < h.timeout < NANOS_PER_SECOND)
            && want.up != 0 && want.down != 0
            && (want.http.Some? ==> var w := want.http.value;
                  w.httpMethod != "" && w.path != "" && w.version != "" && (w.codes == [] <==> h.http.statusCodes == [])
                  && (w.host == None <==> h.http.host == ""))
  {
    SubSecondIsZero(Delay(ours.backend.health));
    SubSecondIsZero(Timeout(ours.backend.health));
  }

  // ---------------------------------------------------------------- the plan

  /** Lines 443-482: the fields every monitor has. */
  function CommonFields(want: Monitor): seq<Field<Monitor>> {
    [ Field((row: Monitor) => row.delayS != want.delayS, (row: Monitor) => PatchDelay(row, want.delayS)),
      Field((row: Monitor) => row.timeoutS != want.timeoutS, (row: Monitor) => PatchTimeout(row, want.timeoutS)),
      Field((row: Monitor) => row.up != want.up, (row: Monitor) => PatchUp(row, want.up)),
      Field((row: Monitor) => row.down != want.down, (row: Monitor) => PatchDown(row, want.down)) ]
  }

  /** Lines 484-548: the fields of the HTTP section. */
  function HttpFields(w: Http): seq<Field<Monitor>> {
    [ Field((row: Monitor) => Section(row).httpMethod != w.httpMethod,
            (row: Monitor) => PatchHttp(row, h => NewMethod(h, w.httpMethod))),
      Field((row: Monitor) => Section(row).path != w.path, (row: Monitor) => PatchHttp(row, h => NewPath(h, w.path))),
      Field((row: Monitor) => Section(row).version != w.version,
            (row: Monitor) => PatchHttp(row, h => NewVersion(h, w.version))),
      Field((row: Monitor) => Section(row).host != w.host, (row: Monitor) => PatchHttp(row, h => NewHost(h, w.host))),
      Field((row: Monitor) => !SlicesMatch(Section(row).codes, w.codes),
            (row: Monitor) => PatchHttp(row, h => NewCodes(h, w.codes))) ]
  }

  function MonitorFields(want: Monitor): seq<Field<Monitor>> {
    CommonFields(want) + if want.http.Some? then HttpFields(want.http.value) else []
  }

  function MonitorPlan(want: Monitor): Plan<Monitor> {
    Plan(OfPool(want.pool), want, (row: Monitor) => row.kind != want.kind, MonitorFields(want))
  }

  /** The section with the first `n` of its fields replaced. */
  ghost function PartlyHttp(h: Http, goal: Http, n: nat): Http {
    Http(if n >= 1 then goal.httpMethod else h.httpMethod, if n >= 2 then goal.path else h.path,
         if n >= 3 then goal.version else h.version, if n >= 4 then goal.host else h.host,
         if n >= 5 then goal.codes else h.codes)
  }

  /** The monitor with the first `n` of its compared fields replaced. */
  ghost function Partly(row: Monitor, goal: Monitor, n: nat): Monitor {
    row.(delayS := if n >= 1 then goal.delayS else row.delayS,
         timeoutS := if n >= 2 then goal.timeoutS else row.timeoutS,
         up := if n >= 3 then goal.up else row.up,
         down := if n >= 4 then goal.down else row.down,
         http := if n >= 5 then Some(PartlyHttp(Section(row), Section(goal), n - 4)) else row.http)
  }

  lemma OneCommonField(row: Monitor, want: Monitor, n: nat)
    requires n < 4
    ensures var f := CommonFields(want)[n];
            var x := Partly(row, Merge(row, want), n);
            Partly(row, Merge(row, want), n + 1) == if f.differs(row) then f.patch(x) else x
  {
  }

  lemma OneHttpField(h: Http, w: Http, row: Monitor, x: Monitor, n: nat)
    requires n < 5 && h == Section(row) && Section(x) == PartlyHttp(h, MergeHttp(h, w), n) && w.host != Some("")
    ensures var f := HttpFields(w)[n];
            var y := PartlyHttp(h, MergeHttp(h, w), n + 1);
            if f.differs(row) then f.patch(x) == x.(http := Some(y)) else Section(x) == y
  {
    hide SlicesMatch;
  }

  lemma OneField(row: Monitor, want: Monitor, n: nat)
    requires Request(want) && n < |MonitorFields(want)|
    ensures var f := MonitorFields(want)[n];
            var x := Partly(row, Merge(row, want), n);
            Partly(row, Merge(row, want), n + 1) == if f.differs(row) then f.patch(x) else x
  {
    if n < 4 {
      OneCommonField(row, want, n);
      hide Partly, CommonFields;
    } else {
      var w, h := want.http.value, Section(row);
      var goal := Merge(row, want);
      var x := Partly(row, goal, n);
      assert MonitorFields(want)[n] == HttpFields(w)[n - 4];
      assert Section(goal) == MergeHttp(h, w);
      assert Section(x) == PartlyHttp(h, MergeHttp(h, w), n - 4);
      OneHttpField(h, w, row, x, n - 4);
      if n == 4 {
        assert HttpFields(w)[0].differs(row) || row.http.Some?;
      }
      hide PartlyHttp, MergeHttp, HttpFields, MonitorFields, CommonFields;
      assert Partly(row, goal, n + 1) == x.(http := Some(PartlyHttp(h, MergeHttp(h, w), n - 3)));
    }
  }

  /** Every stage of patching replaces some of the fields; the last one replaces all. */
  lemma {:induction false} StageIs(row: Monitor, want: Monitor, n: nat)
    requires Request(want) && n <= |MonitorFields(want)|
    ensures Stage(MonitorFields(want), row, n) == Partly(row, Merge(row, want), n)
  {
    if n == 0 {
      assert Partly(row, Merge(row, want), 0) == row by { PartlyNone(row, Merge(row, want)); }
    } else {
      StageIs(row, want, n - 1);
      OneField(row, want, n - 1);
      hide Merge, Partly, MonitorFields;
    }
  }

  lemma PartlyNone(row: Monitor, goal: Monitor)
    ensures Partly(row, goal, 0) == row
  {
  }

  lemma PartlyHttpResumes(h: Http, w: Http, n: nat)
    ensures MergeHttp(PartlyHttp(h, MergeHttp(h, w), n), w) == MergeHttp(h, w)
  {
  }

  /** Interrupted anywhere, the work leads to the same monitor when it is resumed. */
  lemma PartlyResumes(row: Monitor, want: Monitor, n: nat)
    requires n <= |MonitorFields(want)|
    ensures var x := Partly(row, Merge(row, want), n);
            Merge(x, want) == Merge(row, want) && x.pool == row.pool && x.kind == row.kind
  {
    hide MergeHttp, PartlyHttp;
    if want.http.Some? && n >= 5 {
      PartlyHttpResumes(Section(row), want.http.value, n - 4);
    }
  }

  lemma HttpCalls(row: Monitor, want: Monitor)
    requires want.http.Some?
    ensures Calls(MonitorFields(want), row, 9) == Calls(MonitorFields(want), row, 4) + DifferencesHttp(Section(row),
        want.http.value)
  {
    var f, g := MonitorFields(want), HttpFields(want.http.value);
    assert f[4] == g[0] && f[5] == g[1] && f[6] == g[2] && f[7] == g[3] && f[8] == g[4];
    hide MonitorFields, SlicesMatch;
    assert Calls(f, row, 6) == Calls(f, row, 4) + One(g[0].differs(row)) + One(g[1].differs(row));
    assert Calls(f, row, 8) == Calls(f, row, 6) + One(g[2].differs(row)) + One(g[3].differs(row));
  }

  lemma CommonCalls(row: Monitor, want: Monitor)
    ensures Calls(MonitorFields(want), row, 4) ==
            CommonDifferences(row, want)
  {
    var f := CommonFields(want);
    var all := MonitorFields(want);
    assert all[0] == f[0] && all[1] == f[1] && all[2] == f[2] && all[3] == f[3];
    hide MonitorFields;
    assert Calls(all, row, 1) == One(f[0].differs(row));
    assert Calls(all, row, 3) == Calls(all, row, 1) + One(f[1].differs(row)) + One(f[2].differs(row));
  }

  /** The number of calls is the number of differing fields, and they replace the whole record. */
  lemma WholeReplacement(row: Monitor, want: Monitor)
    requires Request(want)
    ensures Goal(MonitorFields(want), row) == Merge(row, want)
    ensures Calls(MonitorFields(want), row, |MonitorFields(want)|) == Differences(row, want)
  {
    var n := |MonitorFields(want)|;
    StageIs(row, want, n);
    CommonCalls(row, want);
    if want.http.Some? {
      HttpCalls(row, want);
      assert n == 9;
    } else {
      assert n == 4;
    }
    hide MonitorFields, MergeHttp, DifferencesHttp, Calls, Stage;
    assert Partly(row, Merge(row, want), n) == Merge(row, want);
  }

  lemma MonitorPlanSound(want: Monitor)
    requires Request(want)
    ensures Sound(MonitorPlan(want))
  {
    var p := MonitorPlan(want);
    hide Stage, Merge, Goal, Partly, Request, MonitorFields, Differences, Calls;
    WholeReplacement(want, want);
    SelfAgrees(want);
    forall row, n | 0 <= n <= |p.fields| && p.mine(row) && !p.recreate(row) ensures Resumes(p, row, n) {
      var x := Stage(p.fields, row, n);
      StageIs(row, want, n);
      PartlyResumes(row, want, n);
      WholeReplacement(row, want);
      WholeReplacement(x, want);
    }
  }

  lemma WantedIsRequest(ours: Pool, theirs: string)
    ensures Request(WantedMonitor(ours, theirs)) && WantedMonitor(ours, theirs).pool == theirs
  {
  }

  /** What the monitor of a pool becomes. */
  ghost function Replaced(row: Monitor, want: Monitor): Monitor {
    if row.kind == want.kind then Merge(row, want) else want
  }

  lemma GoalIs(before: Rows, want: Monitor, goal: Monitor)
    requires Request(want) && Leads(MonitorPlan(want), before, goal)
    ensures Agrees(goal, want)
    ensures (forall i :: i in before ==> before[i].pool != want.pool) ==> goal == want
    ensures forall i :: Only(before, OfPool(want.pool), i) ==> goal == Replaced(before[i], want)
  {
    var p := MonitorPlan(want);
    hide MonitorFields, Merge, Differences;
    if i :| i in before && p.mine(before[i]) {
      assert Final(p, before[i]) == goal;
      WholeReplacement(before[i], want);
      MergeSettles(before[i], want);
    }
  }

  /** `ensureLoadBalancerHealthMonitor`.  `goal` is the monitor the pool is to have: every state left by a
      call leads to it, and the finished one has it.  It agrees with the request, and if the monitor could be
      patched, there is one call per differing field. */
  method EnsureMonitor(t: Table<Monitor>, ours: Pool, theirs: string)
    returns (ok: bool, id: string, ghost goal: Monitor, ghost steps: seq<Rows>)
    requires t.Valid()
    modifies t
    ensures t.Valid() && old(t.minted) <= t.minted && t.log == old(t.log) + steps
    ensures AtMostOne(old(t.rows), OfPool(theirs)) ==>
      var p := MonitorPlan(WantedMonitor(ours, theirs));
      Leads(p, old(t.rows), goal) && Kept(p, old(t.rows), t.rows, goal) && AllKept(p, old(t.rows), steps, goal)
    ensures !AtMostOne(old(t.rows), OfPool(theirs)) ==> !ok && steps == []
    ensures steps == [] ==> t.rows == old(t.rows)
    ensures AsSpecified(WantedMonitor(ours, theirs), ours, theirs)
    ensures t.failures >= old(t.failures) &&
      (t.failures == old(t.failures) ==> ok || !AtMostOne(old(t.rows), OfPool(theirs)))
    ensures ok ==> Only(t.rows, OfPool(theirs), id) && t.rows[id] == goal && Agrees(goal, WantedMonitor(ours, theirs))
    ensures (forall i :: i in old(t.rows) ==> old(t.rows)[i].pool != theirs) ==> goal == WantedMonitor(ours, theirs)
    ensures forall i :: Only(old(t.rows), OfPool(theirs), i) ==>
      var row, want := old(t.rows)[i], WantedMonitor(ours, theirs);
      && goal == Replaced(row, want)
      && (row.kind == want.kind ==> |steps| <= Differences(row, want) && (ok ==> |steps| == Differences(row, want)))
  {
    var want := WantedMonitor(ours, theirs);
    WantedIsRequest(ours, theirs);
    WantedMonitorExactly(want, ours, theirs);
    var p := MonitorPlan(want);
    MonitorPlanSound(want);
    hide Traced, AsSpecified, WantedMonitor, MonitorFields, Sound, Leads, Kept, AllKept, Request, AtMostOne, Merge,
      Agrees, Goal,
      Differences, Calls;
    goal := want;
    ghost var before := t.rows;
    if AtMostOne(before, p.mine) {
      OneGoal(p, before);
      goal :| Leads(p, before, goal);
      GoalIs(before, want, goal);
    }
    ok, id, steps := EnsureOne(t, p, goal);
    forall i | Only(before, OfPool(theirs), i)
      ensures AtMostOne(before, OfPool(theirs)) &&
        Calls(p.fields, before[i], |p.fields|) == Differences(before[i], want) {
      WholeReplacement(before[i], want);
      OnlyOne(before, OfPool(theirs), i);
    }
  }
}
