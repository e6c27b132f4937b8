/** The diff-and-apply of pool members: lines 327-371 of `ensureLoadBalancerPoolMembers`. */
module Members {
  import opened Api
  import opened Tables

  datatype Member = Member(
    pool: string, name: string, enabled: bool, protocolPort: int, monitorPort: int, address: string, subnet: string,
    nodeName: string, serverName: string, monitorStatus: string)

  datatype Request = Request(
    name: string, enabled: Option<bool>, protocolPort: int, monitorPort: int, address: string, subnet: string,
    nodeName: string, serverName: string)

  /** `loadBalancerPoolMemberToRequest` */
  function ToRequest(m: Member): Request {
    Request(m.name, Some(m.enabled), m.protocolPort, m.monitorPort, m.address, m.subnet, m.nodeName, m.serverName)
  }

  /** `loadBalancerPoolMemberRequestEqual` */
  predicate RequestEqual(a: Request, b: Request) {
    && a.enabled == b.enabled
    && a.protocolPort == b.protocolPort
    && a.monitorPort == b.monitorPort
    && a.address == b.address
    && a.subnet == b.subnet
  }

  /** The member the cloud creates for a request. */
  function Echo(pool: string, r: Request): Member {
    Member(pool, r.name, r.enabled != Some(false), r.protocolPort, r.monitorPort, r.address, r.subnet,
           r.nodeName, r.serverName, "unknown")
  }

  /** What members are compared by. */
  datatype Identity = Identity(enabled: Option<bool>, protocolPort: int, monitorPort: int, address: string,
                               subnet: string)

  function Ident(r: Request): Identity {
    Identity(r.enabled, r.protocolPort, r.monitorPort, r.address, r.subnet)
  }

  /** The round trip of a request through the cloud: the member created for it is matched with it by later
      runs exactly if the request says whether the member is enabled. */
  lemma EchoMatches(pool: string, r: Request)
    ensures RequestEqual(r, ToRequest(Echo(pool, r))) <==> r.enabled.Some?
    ensures r.enabled.Some? ==> IdentOf(Echo(pool, r)) == Ident(r)
  {
    if r.enabled.Some? {
      assert r.enabled.value <==> r.enabled != Some(false);
    }
  }

  function IdentOf(m: Member): Identity {
    Ident(ToRequest(m))
  }

  ghost function Idents(rows: map<string, Member>, pool: string): set<Identity> {
    set id | id in rows && rows[id].pool == pool :: IdentOf(rows[id])
  }

  ghost function Desired(should: seq<Request>): set<Identity> {
    set i | 0 <= i < |should| :: Ident(should[i])
  }

  // ---------------------------------------------------------------- what any prefix of the calls leaves

  /** A state between the start and the goal: other pools are untouched, wanted members are kept as they
      are, and every other member of the pool was there before or is wanted. */
  ghost predicate Between(before: map<string, Member>, now: map<string, Member>, pool: string, goal: set<Identity>) {
    && (forall id :: id in before && before[id].pool != pool ==> id in now && now[id] == before[id])
    && (forall id :: id in before && before[id].pool == pool && IdentOf(before[id]) in goal ==>
          id in now && now[id] == before[id])
    && (forall id :: id in now ==>
          (id in before && now[id] == before[id]) ||
            (id !in before && now[id].pool == pool && IdentOf(now[id]) in goal))
  }

  /** Stopped anywhere, the identities lie between what was both there and wanted and what was either. */
  lemma BetweenBounds(before: map<string, Member>, now: map<string, Member>, pool: string, goal: set<Identity>)
    requires Between(before, now, pool, goal)
    ensures Idents(before, pool) * goal <= Idents(now, pool) <= Idents(before, pool) + goal
  {
    forall x | x in Idents(before, pool) * goal ensures x in Idents(now, pool) {
      var id :| id in before && before[id].pool == pool && IdentOf(before[id]) == x;
      assert id in now && now[id] == before[id];
    }
    forall x | x in Idents(now, pool) ensures x in Idents(before, pool) + goal {
      var id :| id in now && now[id].pool == pool && IdentOf(now[id]) == x;
    }
  }

  /** Members that are not wanted, and wanted identities no member has. */
  ghost function Stale(rows: map<string, Member>, pool: string, goal: set<Identity>): set<string> {
    set id | id in rows && rows[id].pool == pool && IdentOf(rows[id]) !in goal
  }

  ghost function Distance(rows: map<string, Member>, pool: string, goal: set<Identity>): nat {
    |Stale(rows, pool, goal)| + |goal - Idents(rows, pool)|
  }

  lemma DistanceZero(rows: map<string, Member>, pool: string, goal: set<Identity>)
    ensures Distance(rows, pool, goal) == 0 <==> Idents(rows, pool) == goal
  {
    var stale, missing := Stale(rows, pool, goal), goal - Idents(rows, pool);
    if Distance(rows, pool, goal) == 0 {
      assert stale == {} && missing == {};
      forall x | x in Idents(rows, pool) ensures x in goal {
        var id :| id in rows && rows[id].pool == pool && IdentOf(rows[id]) == x;
        assert id !in stale;
      }
    }
    if Idents(rows, pool) == goal {
      forall id | id in rows && rows[id].pool == pool ensures IdentOf(rows[id]) in goal {
        assert IdentOf(rows[id]) in Idents(rows, pool);
      }
      assert stale == {} && missing == {};
    }
  }

  /** Deleting a stale member brings the pool one step closer. */
  lemma DeleteCloser(rows: map<string, Member>, pool: string, goal: set<Identity>, id: string)
    requires id in Stale(rows, pool, goal)
    ensures Distance(rows - {id}, pool, goal) == Distance(rows, pool, goal) - 1
  {
    var after := rows - {id};
    assert Stale(after, pool, goal) == Stale(rows, pool, goal) - {id};
    forall x | x in goal ensures x in Idents(after, pool) <==> x in Idents(rows, pool) {
      if x in Idents(rows, pool) {
        var i :| i in rows && rows[i].pool == pool && IdentOf(rows[i]) == x;
        assert i in after && after[i] == rows[i];
      }
    }
    assert goal - Idents(after, pool) == goal - Idents(rows, pool);
  }

  lemma IdentsAfterCreate(rows: map<string, Member>, pool: string, id: string, m: Member)
    requires id !in rows && m.pool == pool
    ensures Idents(rows[id := m], pool) == Idents(rows, pool) + {IdentOf(m)}
  {
    var after := rows[id := m];
    forall x | x in Idents(rows, pool) + {IdentOf(m)} ensures x in Idents(after, pool) {
      if x == IdentOf(m) {
        assert after[id] == m;
      } else {
        var i :| i in rows && rows[i].pool == pool && IdentOf(rows[i]) == x;
        assert after[i] == rows[i];
      }
    }
  }

  /** Creating a wanted member brings the pool closer exactly if no member had its identity yet. */
  lemma CreateCloser(rows: map<string, Member>, pool: string, goal: set<Identity>, id: string, m: Member)
    requires id !in rows && m.pool == pool && IdentOf(m) in goal
    ensures Distance(rows[id := m], pool, goal) ==
            Distance(rows, pool, goal) - (if IdentOf(m) in Idents(rows, pool) then 0 else 1)
  {
    hide Idents, IdentOf;
    var after := rows[id := m];
    IdentsAfterCreate(rows, pool, id, m);
    assert Stale(after, pool, goal) == Stale(rows, pool, goal);
    hide Stale;
    var missing := goal - Idents(rows, pool);
    if IdentOf(m) in Idents(rows, pool) {
      assert goal - Idents(after, pool) == missing;
    } else {
      assert goal - Idents(after, pool) == missing - {IdentOf(m)};
    }
  }

  // ---------------------------------------------------------------- the calls

  ghost predicate NoRepeats(should: seq<Request>) {
    forall i, j :: 0 <= i < j < |should| ==> Ident(should[i]) != Ident(should[j])
  }

  ghost function Latest(before: map<string, Member>, log: seq<map<string, Member>>): map<string, Member> {
    if log == [] then before else log[|log| - 1]
  }

  /** Each state of a log is strictly closer to the goal than the one before it. */
  ghost predicate Approaches(before: map<string, Member>, log: seq<map<string, Member>>, pool: string,
                             goal: set<Identity>) {
    log != [] ==>
      var earlier := log[..|log| - 1];
      && Approaches(before, earlier, pool, goal)
      && Distance(log[|log| - 1], pool, goal) < Distance(Latest(before, earlier), pool, goal)
  }

  lemma ApproachesMore(before: map<string, Member>, log: seq<map<string, Member>>, next: map<string, Member>,
                       pool: string, goal: set<Identity>)
    requires Approaches(before, log, pool, goal)
    requires Distance(next, pool, goal) < Distance(Latest(before, log), pool, goal)
    ensures Approaches(before, log + [next], pool, goal)
  {
    hide Distance;
    assert (log + [next])[..|log|] == log;
  }

  ghost predicate AllBetween(before: map<string, Member>, log: seq<map<string, Member>>, pool: string,
                             goal: set<Identity>) {
    forall i :: 0 <= i < |log| ==> Between(before, log[i], pool, goal)
  }

  lemma DeleteBetween(before: map<string, Member>, now: map<string, Member>, pool: string, goal: set<Identity>,
                      id: string)
    requires Between(before, now, pool, goal) && id in before && before[id].pool == pool && IdentOf(before[id]) !in goal
    ensures Between(before, now - {id}, pool, goal)
  {
  }

  lemma CreateBetween(before: map<string, Member>, now: map<string, Member>, pool: string, goal: set<Identity>,
                      id: string, m: Member)
    requires Between(before, now, pool, goal) && id !in before && id !in now && m.pool == pool && IdentOf(m) in goal
    ensures Between(before, now[id := m], pool, goal)
  {
  }

  predicate Matches(r: Request, should: seq<Request>) {
    exists i | 0 <= i < |should| :: RequestEqual(r, should[i])
  }

  lemma MatchesExactly(r: Request, should: seq<Request>)
    ensures Matches(r, should) <==> Ident(r) in Desired(should)
  {
  }

  function InPool(pool: string): Member -> bool {
    (m: Member) => m.pool == pool
  }

  /** A listed member that no request matches. */
  ghost predicate StaleAt(listed: seq<(string, Member)>, i: int, goal: set<Identity>) {
    0 <= i < |listed| && IdentOf(listed[i].1) !in goal
  }

  ghost predicate Increasing(at: seq<int>) {
    forall i, j :: 0 <= i < j < |at| ==> at[i] < at[j]
  }

  /** `gone` are the listed members without a wanted identity; `at` says where each is listed. */
  ghost predicate PicksStale(listed: seq<(string, Member)>, goal: set<Identity>, gone: seq<string>, at: seq<int>) {
    && |at| == |gone| && Increasing(at)
    && (forall j :: 0 <= j < |gone| ==> StaleAt(listed, at[j], goal) && listed[at[j]].0 == gone[j])
    && (forall i :: StaleAt(listed, i, goal) ==> i in at && listed[i].0 in gone)
  }

  /** Lines 332-339: the listed members that match no request, each once and in order. */
  method ToDelete(listed: seq<(string, Member)>, should: seq<Request>) returns (gone: seq<string>)
    ensures exists at :: PicksStale(listed, Desired(should), gone, at)
  {
    hide Desired, IdentOf;
    gone := [];
    ghost var at := [];
    for n := 0 to |listed|
      invariant |at| == |gone| && Increasing(at) && forall j :: 0 <= j < |at| ==> at[j] < n
      invariant forall j :: 0 <= j < |gone| ==> StaleAt(listed, at[j], Desired(should)) && listed[at[j]].0 == gone[j]
      invariant forall i :: i < n && StaleAt(listed, i, Desired(should)) ==> i in at && listed[i].0 in gone
    {
      WantedExactly(listed[n].1, should);
      if !Matches(ToRequest(listed[n].1), should) {
        gone, at := gone + [listed[n].0], at + [n];
      }
    }
    assert PicksStale(listed, Desired(should), gone, at);
  }

  lemma WantedExactly(m: Member, should: seq<Request>)
    ensures Matches(ToRequest(m), should) <==> IdentOf(m) in Desired(should)
  {
    MatchesExactly(ToRequest(m), should);
  }

  /** A request that no listed member matches. */
  ghost predicate Unmatched(listed: seq<(string, Member)>, r: Request) {
    forall i :: 0 <= i < |listed| ==> IdentOf(listed[i].1) != Ident(r)
  }

  /** `missing` are the unmatched requests; `at` says where each occurs. */
  ghost predicate PicksMissing(listed: seq<(string, Member)>, should: seq<Request>, missing: seq<Request>,
                               at: seq<int>) {
    && |at| == |missing| && Increasing(at)
    && (forall j :: 0 <= j < |missing| ==>
          0 <= at[j] < |should| && missing[j] == should[at[j]] && Unmatched(listed, missing[j]))
    && (forall i :: 0 <= i < |should| && Unmatched(listed, should[i]) ==> i in at)
  }

  /** Lines 340-347: the requests that no listed member matches, as often and in the order they occur. */
  method ToCreate(listed: seq<(string, Member)>, should: seq<Request>) returns (missing: seq<Request>)
    ensures exists at :: PicksMissing(listed, should, missing, at)
  {
    hide IdentOf, Ident;
    missing := [];
    ghost var at := [];
    for n := 0 to |should|
      invariant |at| == |missing| && Increasing(at)
      invariant forall j :: 0 <= j < |missing| ==>
        0 <= at[j] < n && missing[j] == should[at[j]] && Unmatched(listed, missing[j])
      invariant forall i :: 0 <= i < n && Unmatched(listed, should[i]) ==> i in at
    {
      UnmatchedExactly(listed, should[n]);
      if !exists i | 0 <= i < |listed| :: RequestEqual(should[n], ToRequest(listed[i].1)) {
        missing, at := missing + [should[n]], at + [n];
      }
    }
    assert PicksMissing(listed, should, missing, at);
  }

  lemma UnmatchedExactly(listed: seq<(string, Member)>, r: Request)
    ensures Unmatched(listed, r) <==> !exists i :: 0 <= i < |listed| && RequestEqual(r, ToRequest(listed[i].1))
  {
  }

  /** What the positions say about the selection. */
  lemma MissingFacts(listed: seq<(string, Member)>, should: seq<Request>, missing: seq<Request>, at: seq<int>)
    requires PicksMissing(listed, should, missing, at)
    ensures forall r :: r in missing <==> r in should && Unmatched(listed, r)
    ensures NoRepeats(should) ==> NoRepeats(missing)
  {
    hide Unmatched, Ident;
    forall r | r in should && Unmatched(listed, r) ensures r in missing {
      var i :| 0 <= i < |should| && should[i] == r;
      var j :| 0 <= j < |at| && at[j] == i;
      assert missing[j] == r;
    }
    if NoRepeats(should) {
      forall i, j | 0 <= i < j < |missing| ensures Ident(missing[i]) != Ident(missing[j]) {
        assert at[i] < at[j];
      }
    }
  }

  type Rows = map<string, Member>

  /** The calls of a loop: every state it passes through lies between start and goal, and (if `strict`)
      each answered call comes closer to the goal.  Only the last call can have failed. */
  ghost predicate Progress(before: Rows, steps: seq<Rows>, answered: nat, pool: string, goal: set<Identity>,
                           strict: bool) {
    && answered <= |steps| <= answered + 1
    && AllBetween(before, steps, pool, goal)
    && (strict ==> Approaches(before, steps[..answered], pool, goal))
  }

  lemma ProgressMore(before: Rows, steps: seq<Rows>, next: Rows, ok: bool, pool: string, goal: set<Identity>,
                     strict: bool)
    requires Progress(before, steps, |steps|, pool, goal, strict) && Between(before, next, pool, goal)
    requires ok && strict ==> Distance(next, pool, goal) < Distance(Latest(before, steps), pool, goal)
    ensures Progress(before, steps + [next], if ok then |steps| + 1 else |steps|, pool, goal, strict)
  {
    hide Between, Distance;
    assert steps[..|steps|] == steps && (steps + [next])[..|steps|] == steps &&
      (steps + [next])[..|steps| + 1] == steps + [next];
    if ok && strict {
      ApproachesMore(before, steps, next, pool, goal);
    }
  }

  /** Where a loop stands after answered calls only. */
  ghost predicate Underway(before: Rows, steps: seq<Rows>, now: Rows, pool: string, goal: set<Identity>, strict: bool) {
    Between(before, now, pool, goal) && Progress(before, steps, |steps|, pool, goal, strict) &&
      now == Latest(before, steps)
  }

  /** Where a loop stands when it returns. */
  ghost predicate Returned(before: Rows, steps: seq<Rows>, now: Rows, pool: string, goal: set<Identity>, strict: bool,
                           ok: bool) {
    && Between(before, now, pool, goal)
    && (Underway(before, steps, now, pool, goal, strict)
        || (!ok && steps != [] && Progress(before, steps, |steps| - 1, pool, goal, strict)))
  }

  lemma NotStarted(before: Rows, pool: string, goal: set<Identity>, strict: bool)
    ensures Underway(before, [], before, pool, goal, strict)
  {
  }

  lemma Finished(before: Rows, steps: seq<Rows>, now: Rows, pool: string, goal: set<Identity>, strict: bool, ok: bool)
    requires Underway(before, steps, now, pool, goal, strict)
    ensures Returned(before, steps, now, pool, goal, strict, ok)
  {
  }

  lemma StillStale(before: Rows, now: Rows, pool: string, goal: set<Identity>, id: string)
    requires Between(before, now, pool, goal) && id in Stale(before, pool, goal)
    ensures Between(before, now - {id}, pool, goal)
    ensures id in now ==> id in Stale(now, pool, goal)
  {
    DeleteBetween(before, now, pool, goal, id);
  }

  /** A call has been made from where the loop stood. */
  lemma CallMade(before: Rows, steps: seq<Rows>, now: Rows, next: Rows, ok: bool, pool: string, goal: set<Identity>,
                 strict: bool)
    requires Underway(before, steps, now, pool, goal, strict) && Between(before, next, pool, goal)
    requires ok && strict ==> Distance(next, pool, goal) < Distance(now, pool, goal)
    ensures ok ==> Underway(before, steps + [next], next, pool, goal, strict)
    ensures Returned(before, steps + [next], next, pool, goal, strict, ok)
  {
    hide Between, Distance, Progress;
    ProgressMore(before, steps, next, ok, pool, goal, strict);
  }

  lemma UnderwayBetween(before: Rows, steps: seq<Rows>, now: Rows, pool: string, goal: set<Identity>, strict: bool)
    requires Underway(before, steps, now, pool, goal, strict)
    ensures Between(before, now, pool, goal)
  {
  }

  lemma DeleteStep(before: Rows, steps: seq<Rows>, now: Rows, next: Rows, ok: bool, pool: string, goal: set<Identity>,
                   id: string)
    requires Underway(before, steps, now, pool, goal, true) && id in Stale(before, pool, goal)
    requires (next == now || next == now - {id}) && (ok ==> id in now && next == now - {id})
    ensures ok ==> Underway(before, steps + [next], next, pool, goal, true)
    ensures Returned(before, steps + [next], next, pool, goal, true, ok)
  {
    hide Underway, Returned, Between, Stale, Distance;
    UnderwayBetween(before, steps, now, pool, goal, true);
    StillStale(before, now, pool, goal, id);
    if ok {
      DeleteCloser(now, pool, goal, id);
    }
    CallMade(before, steps, now, next, ok, pool, goal, true);
  }

  lemma CreateStep(before: Rows, steps: seq<Rows>, now: Rows, next: Rows, ok: bool, pool: string, goal: set<Identity>,
                   id: string, m: Member, strict: bool)
    requires Underway(before, steps, now, pool, goal, strict)
    requires id !in before && id !in now && m.pool == pool && IdentOf(m) in goal
    requires (next == now || next == now[id := m]) && (ok ==> next == now[id := m])
    requires strict ==> IdentOf(m) !in Idents(now, pool)
    ensures ok ==> Underway(before, steps + [next], next, pool, goal, strict)
    ensures Returned(before, steps + [next], next, pool, goal, strict, ok)
    ensures ok ==> Idents(next, pool) == Idents(now, pool) + {IdentOf(m)}
  {
    hide Underway, Returned, Between, Distance, Idents;
    UnderwayBetween(before, steps, now, pool, goal, strict);
    CreateBetween(before, now, pool, goal, id, m);
    CreateCloser(now, pool, goal, id, m);
    IdentsAfterCreate(now, pool, id, m);
    CallMade(before, steps, now, next, ok, pool, goal, strict);
  }

  lemma StaleIn(rows: Rows, pool: string, goal: set<Identity>)
    ensures forall id :: id in Stale(rows, pool, goal) ==> id in rows
  {
  }

  /** Lines 349-354: delete the stale members one by one. */
  method DeleteAll(t: Table<Member>, gone: seq<string>, pool: string, ghost goal: set<Identity>)
    returns (ok: bool, ghost steps: seq<Rows>)
    requires t.Valid()
    requires forall j :: 0 <= j < |gone| ==> gone[j] in Stale(t.rows, pool, goal)
    requires forall i, j :: 0 <= i < j < |gone| ==> gone[i] != gone[j]
    modifies t
    ensures t.Valid() && old(t.minted) <= t.minted && t.log == old(t.log) + steps
    ensures Returned(old(t.rows), steps, t.rows, pool, goal, true, ok)
    ensures ok ==> forall j :: 0 <= j < |gone| ==> gone[j] !in t.rows
    ensures forall id :: id in t.rows ==> id in old(t.rows)
    ensures gone == [] ==> ok && steps == [] && t.rows == old(t.rows)
    ensures t.failures == old(t.failures) + if ok then 0 else 1
  {
    hide Traced, Underway, Returned, Stale;
    ghost var before := t.rows;
    steps := [];
    NotStarted(before, pool, goal, true);
    assert forall j :: 0 <= j < |gone| ==> gone[j] in t.rows by { StaleIn(t.rows, pool, goal); }
    var n := 0;
    while n < |gone|
      invariant n <= |gone| && t.Valid() && t.minted == old(t.minted) && t.log == old(t.log) + steps
      invariant Underway(before, steps, t.rows, pool, goal, true)
      invariant forall j :: 0 <= j < n ==> gone[j] !in t.rows
      invariant forall id :: id in t.rows ==> id in before
      invariant t.failures == old(t.failures) && forall j :: n <= j < |gone| ==> gone[j] in t.rows
      invariant gone == [] ==> steps == [] && t.rows == before
    {
      ghost var now := t.rows;
      var notFound;
      ok, notFound := t.Delete(gone[n]);
      DeleteStep(before, steps, now, t.rows, ok, pool, goal, gone[n]);
      steps := steps + [t.rows];
      if !ok {
        return;
      }
      n := n + 1;
    }
    ok := true;
    Finished(before, steps, t.rows, pool, goal, true, ok);
  }

  /** Lines 355-364: create the missing members one by one, after the calls `done` of the delete loop. */
  method CreateAll(t: Table<Member>, missing: seq<Request>, pool: string, ghost goal: set<Identity>,
                   ghost before: Rows, ghost done: seq<Rows>, ghost strict: bool)
    returns (ok: bool, ghost steps: seq<Rows>)
    requires t.Valid() && before.Keys <= t.minted && Underway(before, done, t.rows, pool, goal, strict) &&
      (strict ==> NoRepeats(missing))
    requires forall j :: 0 <= j < |missing| ==>
      missing[j].enabled == Some(true) && Ident(missing[j]) in goal && Ident(missing[j]) !in Idents(t.rows, pool)
    modifies t
    ensures t.Valid() && old(t.minted) <= t.minted && t.log == old(t.log) + steps
    ensures Returned(before, done + steps, t.rows, pool, goal, strict, ok)
    ensures ok ==> Idents(t.rows, pool) == Idents(old(t.rows), pool) + Desired(missing)
    ensures missing == [] ==> ok && steps == [] && t.rows == old(t.rows)
    ensures t.failures == old(t.failures) + if ok then 0 else 1
  {
    hide Traced, Underway, Returned, Idents;
    steps := [];
    assert done + steps == done;
    var n := 0;
    while n < |missing|
      invariant n <= |missing| && t.Valid() && old(t.minted) <= t.minted && t.log == old(t.log) + steps
      invariant Underway(before, done + steps, t.rows, pool, goal, strict)
      invariant Idents(t.rows, pool) == Idents(old(t.rows), pool) + Desired(missing[..n])
      invariant missing == [] ==> steps == [] && t.rows == old(t.rows)
      invariant t.failures == old(t.failures)
    {
      ghost var now := t.rows;
      ghost var m := Echo(pool, missing[n]);
      NotYet(missing, n);
      assert missing[..n + 1] == missing[..n] + [missing[n]];
      DesiredMore(missing[..n], missing[n]);
      EchoMatches(pool, missing[n]);
      var id;
      ok, id := t.Create(Echo(pool, missing[n]));
      CreateStep(before, done + steps, now, t.rows, ok, pool, goal, id, m, strict);
      assert done + steps + [t.rows] == done + (steps + [t.rows]);
      steps := steps + [t.rows];
      if !ok {
        return;
      }
      n := n + 1;
    }
    assert missing[..|missing|] == missing;
    ok := true;
    Finished(before, done + steps, t.rows, pool, goal, strict, ok);
  }

  lemma NotYet(missing: seq<Request>, n: nat)
    requires n < |missing|
    ensures NoRepeats(missing) ==> Ident(missing[n]) !in Desired(missing[..n])
  {
  }

  lemma DesiredMore(should: seq<Request>, r: Request)
    ensures Desired(should + [r]) == Desired(should) + {Ident(r)}
  {
    forall x | x in Desired(should) + {Ident(r)} ensures x in Desired(should + [r]) {
      if x == Ident(r) {
        assert (should + [r])[|should|] == r;
      } else {
        var i :| 0 <= i < |should| && Ident(should[i]) == x;
        assert (should + [r])[i] == should[i];
      }
    }
  }

  lemma Relaxed(before: Rows, steps: seq<Rows>, now: Rows, pool: string, goal: set<Identity>, strict: bool, ok: bool)
    requires Returned(before, steps, now, pool, goal, true, ok)
    ensures Returned(before, steps, now, pool, goal, strict, ok)
    ensures ok ==> Underway(before, steps, now, pool, goal, strict)
  {
  }

  /** The listed members that match no request are the stale ones. */
  lemma ListedStale(rows: Rows, pool: string, should: seq<Request>, listed: seq<(string, Member)>, gone: seq<string>,
                    at: seq<int>)
    requires Enumerates(listed, rows, InPool(pool)) && PicksStale(listed, Desired(should), gone, at)
    ensures forall j :: 0 <= j < |gone| ==> gone[j] in Stale(rows, pool, Desired(should))
    ensures forall id :: id in Stale(rows, pool, Desired(should)) ==> id in gone
    ensures Idents(rows, pool) == Desired(should) ==> gone == []
    ensures forall i, j :: 0 <= i < j < |gone| ==> gone[i] != gone[j]
  {
    forall i, j | 0 <= i < j < |gone| ensures gone[i] != gone[j] {
      assert at[i] < at[j] && StaleAt(listed, at[i], Desired(should)) && StaleAt(listed, at[j], Desired(should));
    }
    forall id | id in Stale(rows, pool, Desired(should)) ensures id in gone {
      var i :| 0 <= i < |listed| && listed[i] == (id, rows[id]);
      assert StaleAt(listed, i, Desired(should));
    }
    if gone != [] {
      var id := gone[0];
      assert StaleAt(listed, at[0], Desired(should));
      assert IdentOf(rows[id]) in Idents(rows, pool);
    }
  }

  /** The listed identities are those of the pool. */
  lemma ListedIdents(rows: Rows, pool: string, listed: seq<(string, Member)>, x: Identity)
    requires Enumerates(listed, rows, InPool(pool))
    ensures x in Idents(rows, pool) <==> exists i :: 0 <= i < |listed| && IdentOf(listed[i].1) == x
  {
    if x in Idents(rows, pool) {
      var id :| id in rows && rows[id].pool == pool && IdentOf(rows[id]) == x;
      var i :| 0 <= i < |listed| && listed[i] == (id, rows[id]);
    }
  }

  /** Without stale members, what is left of the pool is what was both there and wanted. */
  lemma AfterDeletes(before: Rows, now: Rows, pool: string, goal: set<Identity>)
    requires Between(before, now, pool, goal) && (forall id :: id in Stale(before, pool, goal) ==> id !in now)
    requires forall id :: id in now ==> id in before
    ensures Idents(now, pool) == Idents(before, pool) * goal
  {
    BetweenBounds(before, now, pool, goal);
    forall x | x in Idents(now, pool) ensures x in Idents(before, pool) * goal {
      var id :| id in now && now[id].pool == pool && IdentOf(now[id]) == x;
      assert id !in Stale(before, pool, goal);
    }
  }

  lemma Unanswered(before: Rows, steps: seq<Rows>, now: Rows, pool: string, goal: set<Identity>, strict: bool)
    requires Returned(before, steps, now, pool, goal, strict, true)
    ensures Returned(before, steps, now, pool, goal, strict, false)
  {
  }

  /** The pool after the first `n` answered creates. */
  ghost function Created(rows: Rows, pool: string, ids: seq<string>, missing: seq<Request>, n: nat): Rows
    requires n <= |missing| == |ids|
  {
    if n == 0 then rows else Created(rows, pool, ids, missing, n - 1)[ids[n - 1] := Echo(pool, missing[n - 1])]
  }

  /** The identifiers of the new members are new, and the requests wanted and not there yet. */
  ghost predicate ToBeCreated(rows: Rows, pool: string, goal: set<Identity>, ids: seq<string>, missing: seq<Request>) {
    && |ids| == |missing| && (forall i, j :: 0 <= i < j < |ids| ==> ids[i] != ids[j])
    && (forall i :: 0 <= i < |ids| ==> ids[i] !in rows && missing[i].enabled.Some?)
    && (forall i :: 0 <= i < |ids| ==> Ident(missing[i]) in goal && Ident(missing[i]) !in Idents(rows, pool))
  }

  lemma {:induction false} CreatedSoFar(rows: Rows, pool: string, goal: set<Identity>, ids: seq<string>,
                                        missing: seq<Request>, n: nat)
    requires ToBeCreated(rows, pool, goal, ids, missing) && n <= |missing|
    ensures Idents(Created(rows, pool, ids, missing, n), pool) == Idents(rows, pool) + Desired(missing[..n])
    ensures forall i :: n <= i < |ids| ==> ids[i] !in Created(rows, pool, ids, missing, n)
  {
    hide Idents, Desired, IdentOf, Ident;
    if n == 0 {
      assert Desired(missing[..0]) == {} by { NothingDesired(missing[..0]); }
    } else {
      CreatedSoFar(rows, pool, goal, ids, missing, n - 1);
      IdentsAfterCreate(Created(rows, pool, ids, missing, n - 1), pool, ids[n - 1], Echo(pool, missing[n - 1]));
      EchoMatches(pool, missing[n - 1]);
      DesiredMore(missing[..n - 1], missing[n - 1]);
      assert missing[..n] == missing[..n - 1] + [missing[n - 1]];
    }
  }

  lemma NothingDesired(should: seq<Request>)
    requires should == []
    ensures Desired(should) == {}
  {
  }

  /** The create after the first `n` comes closer to the goal. */
  ghost predicate Closer(rows: Rows, pool: string, goal: set<Identity>, ids: seq<string>, missing: seq<Request>, n: nat)
    requires n < |missing| == |ids|
  {
    Distance(Created(rows, pool, ids, missing, n + 1), pool, goal) <
    Distance(Created(rows, pool, ids, missing, n), pool, goal)
  }

  /** A create makes progress exactly if its identity does not occur among the requests created before it. */
  lemma CreateExactly(rows: Rows, pool: string, goal: set<Identity>, ids: seq<string>, missing: seq<Request>, n: nat)
    requires ToBeCreated(rows, pool, goal, ids, missing) && n < |missing|
    ensures Closer(rows, pool, goal, ids, missing, n) <==> Ident(missing[n]) !in Desired(missing[..n])
  {
    hide Idents, Desired, IdentOf, Ident, Distance;
    var now, m := Created(rows, pool, ids, missing, n), Echo(pool, missing[n]);
    CreatedSoFar(rows, pool, goal, ids, missing, n);
    EchoMatches(pool, missing[n]);
    CreateCloser(now, pool, goal, ids[n], m);
  }

  /** Every create makes progress if and only if no request is repeated. */
  lemma ProgressExactly(rows: Rows, pool: string, goal: set<Identity>, ids: seq<string>, missing: seq<Request>)
    requires ToBeCreated(rows, pool, goal, ids, missing)
    ensures (forall n :: 0 <= n < |missing| ==> Closer(rows, pool, goal, ids, missing, n)) <==> NoRepeats(missing)
  {
    assert |ids| == |missing|;
    hide Closer, ToBeCreated, Desired, NoRepeats, Ident;
    forall n | 0 <= n < |missing|
      ensures Closer(rows, pool, goal, ids, missing, n) <==> Ident(missing[n]) !in Desired(missing[..n])
    {
      CreateExactly(rows, pool, goal, ids, missing, n);
    }
    RepeatsExactly(missing);
  }

  lemma RepeatsExactly(missing: seq<Request>)
    ensures NoRepeats(missing) <==> forall n :: 0 <= n < |missing| ==> Ident(missing[n]) !in Desired(missing[..n])
  {
    hide Ident;
    if !NoRepeats(missing) {
      var i, j :| 0 <= i < j < |missing| && Ident(missing[i]) == Ident(missing[j]);
      assert missing[..j][i] == missing[i];
    }
  }

  /** What is left to create once the stale members are gone. */
  lemma LeftToCreate(before: Rows, steps: seq<Rows>, now: Rows, pool: string, should: seq<Request>,
                     listed: seq<(string, Member)>, missing: seq<Request>, strict: bool)
    requires Underway(before, steps, now, pool, Desired(should), strict) && Enumerates(listed, before, InPool(pool))
    requires forall id :: id in now ==> id in before
    requires forall id :: id in Stale(before, pool, Desired(should)) ==> id !in now
    requires forall r :: r in missing <==> r in should && Unmatched(listed, r)
    ensures forall j :: 0 <= j < |missing| ==>
      missing[j] in should && Ident(missing[j]) in Desired(should) && Ident(missing[j]) !in Idents(now, pool)
    ensures Idents(now, pool) + Desired(missing) == Desired(should)
    ensures Idents(before, pool) == Desired(should) ==> missing == []
  {
    hide Enumerates;
    AfterDeletes(before, now, pool, Desired(should));
    forall j | 0 <= j < |missing| ensures missing[j] in should && Ident(missing[j]) in Desired(should) &&
      Ident(missing[j]) !in Idents(before, pool) {
      assert missing[j] in missing;
      ListedIdents(before, pool, listed, Ident(missing[j]));
      var i :| 0 <= i < |should| && should[i] == missing[j];
    }
    forall x | x in Desired(should) ensures x in Idents(now, pool) + Desired(missing) {
      var i :| 0 <= i < |should| && Ident(should[i]) == x;
      ListedIdents(before, pool, listed, x);
      if x !in Idents(before, pool) {
        assert should[i] in missing;
      }
    }
    if missing != [] {
      assert Ident(missing[0]) in Desired(should) && Ident(missing[0]) !in Idents(before, pool);
    }
  }

  /** Lines 327-371.  Wherever it stops, the pool lies between what it was and what it should be, wanted
      members keep their identifiers and other pools are untouched; each answered call comes closer to the
      goal (as long as no request is repeated); finished, the members are exactly the wanted ones; and a
      pool that matches is left alone. */
  method EnsurePoolMembers(t: Table<Member>, pool: string, should: seq<Request>)
    returns (ok: bool, actual: seq<(string, Member)>, ghost steps: seq<Rows>)
    requires t.Valid() && forall j :: 0 <= j < |should| ==> should[j].enabled == Some(true)
    modifies t
    ensures t.Valid() && old(t.minted) <= t.minted && t.log == old(t.log) + steps
    ensures Returned(old(t.rows), steps, t.rows, pool, Desired(should), NoRepeats(should), ok)
    ensures ok ==> Idents(t.rows, pool) == Desired(should) && Enumerates(actual, t.rows, InPool(pool))
    ensures Idents(old(t.rows), pool) == Desired(should) ==> steps == [] && t.rows == old(t.rows)
    ensures t.failures == old(t.failures) + if ok then 0 else 1
  {
    hide Traced, Returned, Underway, Idents, Desired, NoRepeats, Between, Enumerates, PicksStale, PicksMissing;
    ghost var before, goal := t.rows, Desired(should);
    steps, actual := [], [];
    var listed;
    ok, listed := t.List(InPool(pool));
    if !ok {
      NotStarted(before, pool, goal, NoRepeats(should));
      Finished(before, steps, t.rows, pool, goal, NoRepeats(should), ok);
      return;
    }
    var gone := ToDelete(listed, should);
    ghost var at :| PicksStale(listed, goal, gone, at);
    ListedStale(before, pool, should, listed, gone, at);
    var missing := ToCreate(listed, should);
    ghost var where :| PicksMissing(listed, should, missing, where);
    MissingFacts(listed, should, missing, where);
    ok, steps := DeleteAll(t, gone, pool, goal);
    Relaxed(before, steps, t.rows, pool, goal, NoRepeats(should), ok);
    if !ok {
      return;
    }
    LeftToCreate(before, steps, t.rows, pool, should, listed, missing, NoRepeats(should));
    ghost var more;
    ok, more := CreateAll(t, missing, pool, goal, before, steps, NoRepeats(should));
    steps := steps + more;
    if !ok {
      return;
    }
    Unanswered(before, steps, t.rows, pool, goal, NoRepeats(should));
    ok, actual := t.List(InPool(pool));
  }

  /** Crash safety of the whole call sequence, spelled out: after any of its calls, answered or not, the
      identities lie between the common and the joint ones, and wanted members are still the same rows. */
  lemma CrashSafe(before: Rows, steps: seq<Rows>, now: Rows, pool: string, goal: set<Identity>, strict: bool,
                  ok: bool, i: nat)
    requires Returned(before, steps, now, pool, goal, strict, ok) && i < |steps|
    ensures Idents(before, pool) * goal <= Idents(steps[i], pool) <= Idents(before, pool) + goal
    ensures forall id :: id in before && (before[id].pool != pool || IdentOf(before[id]) in goal) ==>
      id in steps[i] && steps[i][id] == before[id]
    ensures forall id :: id in steps[i] && steps[i][id].pool != pool ==> id in before
  {
    assert Between(before, steps[i], pool, goal);
    BetweenBounds(before, steps[i], pool, goal);
  }
}
