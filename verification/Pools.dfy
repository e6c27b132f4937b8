/** `ensureLoadBalancerPools`: the pools of one load balancer and their mapping to the specification. */
module Pools {
  import opened Api
  import opened Tables

  /** A pool as the cloud holds it; these four fields are what pools are compared by. */
  datatype CloudPool = CloudPool(name: string, lb: string, algorithm: string, protocol: string)

  type Rows = map<string, CloudPool>

  /** Lines 679-690: the wanted pools, one per pool of the specification. */
  function WantedPool(key: NamespacedName, uuid: string, p: Pool): CloudPool {
    CloudPool(CloudName(key) + "-" + p.name, uuid,
              WireAlgorithm(OrDefaultText(p.algorithm, "RoundRobin")),
              WirePoolProtocol(OrDefaultText(p.backend.protocol, "TCP")))
  }

  /** A cloud pool as the specification asks for it, spelled out. */
  ghost predicate AsSpecified(row: CloudPool, key: NamespacedName, uuid: string, p: Pool) {
    && row.lb == uuid
    && row.name == "appuio_io_loadbalancer_controller-" + key.namespace + "-" + key.name + "-" + p.name
    && row.algorithm == (if p.algorithm == "" || p.algorithm == "RoundRobin" then "round_robin"
                         else if p.algorithm == "LeastConnections" then "least_connections"
                         else if p.algorithm == "SourceIP" then "source_ip"
                         else p.algorithm)
    && row.protocol == (if p.backend.protocol == "" || p.backend.protocol == "TCP" then "tcp"
                        else if p.backend.protocol == "Proxy" then "proxy"
                        else if p.backend.protocol == "ProxyV2" then "proxyv2"
                        else p.backend.protocol)
  }

  /** The wanted pool is the one pool the specification asks for. */
  lemma WantedPoolExactly(row: CloudPool, key: NamespacedName, uuid: string, p: Pool)
    ensures row == WantedPool(key, uuid, p) <==> AsSpecified(row, key, uuid, p)
  {
  }

  ghost predicate DistinctNames(pools: seq<Pool>) {
    forall i, j :: 0 <= i < j < |pools| ==> pools[i].name != pools[j].name
  }

  ghost predicate Different(should: seq<CloudPool>) {
    forall i, j :: 0 <= i < j < |should| ==> should[i] != should[j]
  }

  lemma NamesSeparate(key: NamespacedName, uuid: string, pools: seq<Pool>, should: seq<CloudPool>)
    requires DistinctNames(pools) && |should| == |pools|
    requires forall i :: 0 <= i < |pools| ==> should[i] == WantedPool(key, uuid, pools[i])
    ensures Different(should)
  {
    var prefix := CloudName(key) + "-";
    forall i, j | 0 <= i < j < |should| ensures should[i] != should[j] {
      assert should[i].name == prefix + pools[i].name && should[j].name == prefix + pools[j].name;
      assert should[i].name[|prefix|..] == pools[i].name && should[j].name[|prefix|..] == pools[j].name;
    }
  }

  function OfLb(uuid: string): CloudPool -> bool {
    (p: CloudPool) => p.lb == uuid
  }

  /** A state between the start and the goal: pools of other load balancers are untouched, wanted pools
      are kept, and every other pool of this load balancer was there before or is wanted. */
  ghost predicate Between(before: Rows, now: Rows, uuid: string, should: seq<CloudPool>) {
    && (forall id :: id in before && (before[id].lb != uuid || before[id] in should) ==>
          id in now && now[id] == before[id])
    && (forall id :: id in now ==>
          (id in before && now[id] == before[id]) || (id !in before && now[id] in should && now[id].lb == uuid))
  }

  ghost predicate AllBetween(before: Rows, steps: seq<Rows>, uuid: string, should: seq<CloudPool>) {
    forall i :: 0 <= i < |steps| ==> Between(before, steps[i], uuid, should)
  }

  /** The load balancer has no two pools that compare as equal. */
  ghost predicate Unique(rows: Rows, uuid: string) {
    forall i, j :: i in rows && j in rows && rows[i].lb == uuid && rows[i] == rows[j] ==> i == j
  }

  ghost predicate AllUnique(steps: seq<Rows>, uuid: string) {
    forall i :: 0 <= i < |steps| ==> Unique(steps[i], uuid)
  }

  ghost predicate Has(rows: Rows, p: CloudPool) {
    exists id :: id in rows && rows[id] == p
  }

  /** The pools of the load balancer are wanted ones, and every wanted one exists. */
  ghost predicate Converged(rows: Rows, uuid: string, should: seq<CloudPool>) {
    && (forall id :: id in rows && rows[id].lb == uuid ==> rows[id] in should)
    && (forall i :: 0 <= i < |should| ==> Has(rows, should[i]))
  }

  /** `slices.IndexFunc` over the listed pools. */
  function IndexOf(listed: seq<(string, CloudPool)>, p: CloudPool): (i: int)
    ensures -1 <= i < |listed|
    ensures i >= 0 ==> listed[i].1 == p && forall j :: 0 <= j < i ==> listed[j].1 != p
    ensures i < 0 ==> forall j :: 0 <= j < |listed| ==> listed[j].1 != p
  {
    if listed == [] then -1
    else if listed[0].1 == p then 0
    else
      var r := IndexOf(listed[1..], p);
      assert forall j :: 1 <= j < |listed| ==> listed[j] == listed[1..][j - 1];
      if r < 0 then -1 else r + 1
  }

  lemma ListedHas(listed: seq<(string, CloudPool)>, rows: Rows, uuid: string, p: CloudPool)
    requires Enumerates(listed, rows, OfLb(uuid)) && p.lb == uuid
    ensures IndexOf(listed, p) >= 0 <==> Has(rows, p)
    ensures IndexOf(listed, p) >= 0 ==> var id := listed[IndexOf(listed, p)].0; id in rows && rows[id] == p
  {
    if Has(rows, p) {
      var id :| id in rows && rows[id] == p;
      var i :| 0 <= i < |listed| && listed[i] == (id, rows[id]);
    }
  }

  lemma DeleteBetween(before: Rows, now: Rows, uuid: string, should: seq<CloudPool>, id: string)
    requires Between(before, now, uuid, should) && id in before && before[id].lb == uuid && before[id] !in should
    ensures Between(before, now - {id}, uuid, should)
    ensures Unique(now, uuid) ==> Unique(now - {id}, uuid)
  {
  }

  lemma CreateBetween(before: Rows, now: Rows, uuid: string, should: seq<CloudPool>, id: string, p: CloudPool)
    requires Between(before, now, uuid, should) && id !in before && id !in now && p in should && p.lb == uuid
    ensures Between(before, now[id := p], uuid, should)
    ensures Unique(now, uuid) && !Has(now, p) ==> Unique(now[id := p], uuid)
  {
    if Unique(now, uuid) && !Has(now, p) {
      forall i | i in now ensures now[i] != p {
      }
    }
  }

  /** The calls so far: every state lies between start and goal, and (with distinct wanted pools) none has
      two pools that compare as equal unless the start had. */
  ghost predicate Underway(before: Rows, steps: seq<Rows>, now: Rows, uuid: string, should: seq<CloudPool>) {
    && Between(before, now, uuid, should) && AllBetween(before, steps, uuid, should)
    && (Unique(before, uuid) && Different(should) ==> Unique(now, uuid) && AllUnique(steps, uuid))
  }

  lemma NotStarted(before: Rows, uuid: string, should: seq<CloudPool>)
    ensures Underway(before, [], before, uuid, should)
  {
  }

  lemma ListedRow(listed: seq<(string, CloudPool)>, rows: Rows, uuid: string, n: nat)
    requires Enumerates(listed, rows, OfLb(uuid)) && n < |listed|
    ensures listed[n].0 in rows && rows[listed[n].0] == listed[n].1 && listed[n].1.lb == uuid
  {
  }

  lemma ListedAll(listed: seq<(string, CloudPool)>, rows: Rows, uuid: string, id: string)
    requires Enumerates(listed, rows, OfLb(uuid)) && id in rows && rows[id].lb == uuid
    ensures exists i :: 0 <= i < |listed| && listed[i] == (id, rows[id])
  {
  }

  lemma DeleteStep(before: Rows, steps: seq<Rows>, now: Rows, next: Rows, uuid: string, should: seq<CloudPool>,
                   id: string)
    requires Underway(before, steps, now, uuid, should) && (next == now || next == now - {id})
    requires id in before && before[id].lb == uuid && before[id] !in should
    ensures Underway(before, steps + [next], next, uuid, should)
  {
    DeleteBetween(before, now, uuid, should, id);
    hide Between, Unique, Different;
  }

  lemma CreateStep(before: Rows, steps: seq<Rows>, now: Rows, next: Rows, uuid: string, should: seq<CloudPool>,
                   id: string, p: CloudPool)
    requires Underway(before, steps, now, uuid, should) && (next == now || next == now[id := p])
    requires id !in before && id !in now && p in should && p.lb == uuid
    requires Different(should) ==> !Has(now, p)
    ensures Underway(before, steps + [next], next, uuid, should)
  {
    CreateBetween(before, now, uuid, should, id, p);
    hide Between, Unique, Different, Has;
  }

  ghost predicate OnlyWanted(rows: Rows, uuid: string, should: seq<CloudPool>) {
    forall id :: id in rows && rows[id].lb == uuid ==> rows[id] in should
  }

  /** Lines 694-710: delete the pools that match no wanted pool. */
  method DeleteStale(t: Table<CloudPool>, listed: seq<(string, CloudPool)>, uuid: string, should: seq<CloudPool>)
    returns (ok: bool, ghost steps: seq<Rows>)
    requires t.Valid() && Enumerates(listed, t.rows, OfLb(uuid))
    modifies t
    ensures t.Valid() && t.minted == old(t.minted) && t.log == old(t.log) + steps
    ensures Underway(old(t.rows), steps, t.rows, uuid, should)
    ensures forall id :: id in t.rows ==> id in old(t.rows) && t.rows[id] == old(t.rows)[id]
    ensures ok ==> OnlyWanted(t.rows, uuid, should)
    ensures OnlyWanted(old(t.rows), uuid, should) ==> ok && steps == [] && t.rows == old(t.rows)
    ensures t.failures == old(t.failures) + if ok then 0 else 1
  {
    hide Traced, Underway, Enumerates, OnlyWanted;
    ghost var before := t.rows;
    steps := [];
    NotStarted(before, uuid, should);
    ListedIn(listed, before, uuid);
    var n := 0;
    while n < |listed|
      invariant n <= |listed| && t.Valid() && t.minted == old(t.minted) && t.log == old(t.log) + steps
      invariant Underway(before, steps, t.rows, uuid, should)
      invariant forall id :: id in t.rows ==> id in before && t.rows[id] == before[id]
      invariant forall i :: 0 <= i < n && listed[i].1 !in should ==> listed[i].0 !in t.rows
      invariant OnlyWanted(before, uuid, should) ==> steps == [] && t.rows == before
      invariant t.failures == old(t.failures)
      invariant forall i :: n <= i < |listed| ==> listed[i].0 in t.rows
    {
      ListedRow(listed, before, uuid, n);
      ListedOnce(listed, before, uuid, n);
      if listed[n].1 !in should {
        assert !OnlyWanted(before, uuid, should) by { Unwanted(before, uuid, should, listed[n].0); }
        ghost var now := t.rows;
        var missing;
        ok, missing := t.Delete(listed[n].0);
        DeleteStep(before, steps, now, t.rows, uuid, should, listed[n].0);
        steps := steps + [t.rows];
        if !ok {
          return;
        }
      }
      n := n + 1;
    }
    ok := true;
    AllGone(listed, before, t.rows, uuid, should);
  }

  lemma ListedOnce(listed: seq<(string, CloudPool)>, rows: Rows, uuid: string, n: nat)
    requires Enumerates(listed, rows, OfLb(uuid)) && n < |listed|
    ensures forall i :: n < i < |listed| ==> listed[i].0 != listed[n].0
  {
  }

  lemma ListedIn(listed: seq<(string, CloudPool)>, rows: Rows, uuid: string)
    requires Enumerates(listed, rows, OfLb(uuid))
    ensures forall i :: 0 <= i < |listed| ==> listed[i].0 in rows
  {
  }

  lemma Unwanted(rows: Rows, uuid: string, should: seq<CloudPool>, id: string)
    requires id in rows && rows[id].lb == uuid && rows[id] !in should
    ensures !OnlyWanted(rows, uuid, should)
  {
  }

  lemma AllGone(listed: seq<(string, CloudPool)>, before: Rows, now: Rows, uuid: string, should: seq<CloudPool>)
    requires Enumerates(listed, before, OfLb(uuid))
    requires forall id :: id in now ==> id in before && now[id] == before[id]
    requires forall i :: 0 <= i < |listed| && listed[i].1 !in should ==> listed[i].0 !in now
    ensures OnlyWanted(now, uuid, should)
  {
    hide Enumerates;
    forall id | id in now && now[id].lb == uuid ensures now[id] in should {
      ListedAll(listed, before, uuid, id);
      var i :| 0 <= i < |listed| && listed[i] == (id, before[id]);
    }
  }

  // ---------------------------------------------------------------- mapping

  /** The mapping so far: every wanted pool is mapped to a living cloud pool that matches it; to the first
      listed one if the list had any, to one created since otherwise; and created pools are never shared. */
  ghost predicate Mapped(listed: seq<(string, CloudPool)>, before: Rows, now: Rows, should: seq<CloudPool>,
                         theirs: seq<string>) {
    && |theirs| <= |should|
    && (forall i :: 0 <= i < |theirs| ==> theirs[i] in now && now[theirs[i]] == should[i])
    && (forall i :: 0 <= i < |theirs| ==>
          if IndexOf(listed, should[i]) >= 0 then theirs[i] == listed[IndexOf(listed,
              should[i])].0 else theirs[i] !in before)
    && (forall i, j :: 0 <= i < j < |theirs| && theirs[i] == theirs[j] ==>
          IndexOf(listed, should[i]) >= 0 && IndexOf(listed, should[j]) >= 0)
  }

  lemma MappedFound(listed: seq<(string, CloudPool)>, before: Rows, now: Rows, uuid: string, should: seq<CloudPool>,
                    theirs: seq<string>)
    requires Mapped(listed, before, now, should, theirs) && |theirs| < |should|
    requires Between(before, now, uuid, should) && Enumerates(listed, before, OfLb(uuid))
    requires IndexOf(listed, should[|theirs|]) >= 0
    ensures Mapped(listed, before, now, should, theirs + [listed[IndexOf(listed, should[|theirs|])].0])
  {
    var i := IndexOf(listed, should[|theirs|]);
    ListedRow(listed, before, uuid, i);
    hide Enumerates, IndexOf;
    assert should[|theirs|] in should;
    var id := listed[i].0;
    assert id in now && now[id] == should[|theirs|];
  }

  lemma MappedCreated(listed: seq<(string, CloudPool)>, before: Rows, now: Rows, should: seq<CloudPool>,
                      theirs: seq<string>, id: string)
    requires Mapped(listed, before, now, should, theirs) && |theirs| < |should|
    requires IndexOf(listed, should[|theirs|]) < 0 && id !in before && id !in now
    ensures Mapped(listed, before, now[id := should[|theirs|]], should, theirs + [id])
  {
    hide IndexOf;
  }

  /** Two pools of the specification share a cloud pool exactly when they compare as equal and the cloud
      had a matching pool to begin with. */
  lemma SharedExactly(listed: seq<(string, CloudPool)>, before: Rows, now: Rows, uuid: string, should: seq<CloudPool>,
                      theirs: seq<string>, i: nat, j: nat)
    requires Mapped(listed, before, now, should, theirs) && Enumerates(listed, before, OfLb(uuid))
    requires i < j < |theirs| && should[i].lb == uuid
    ensures theirs[i] == theirs[j] <==> should[i] == should[j] && Has(before, should[i])
  {
    ListedHas(listed, before, uuid, should[i]);
  }

  /** Pools created so far were created for the wanted pools mapped so far. */
  ghost predicate CreatedFor(before: Rows, now: Rows, should: seq<CloudPool>, n: nat) {
    forall id :: id in now && id !in before ==> exists i :: 0 <= i < n && i < |should| && now[id] == should[i]
  }

  lemma NotYet(listed: seq<(string, CloudPool)>, before: Rows, now: Rows, uuid: string, should: seq<CloudPool>, n: nat)
    requires CreatedFor(before, now, should, n) && Between(before, now, uuid, should) &&
      Enumerates(listed, before, OfLb(uuid))
    requires n < |should| && should[n].lb == uuid && IndexOf(listed, should[n]) < 0
    ensures Different(should) ==> !Has(now, should[n])
  {
    ListedHas(listed, before, uuid, should[n]);
  }

  lemma CreatedMore(before: Rows, now: Rows, should: seq<CloudPool>, n: nat, id: string)
    requires CreatedFor(before, now, should, n) && n < |should|
    ensures CreatedFor(before, now, should, n + 1) && CreatedFor(before, now[id := should[n]], should, n + 1)
  {
  }

  lemma OnlyWantedMore(now: Rows, uuid: string, should: seq<CloudPool>, id: string, p: CloudPool)
    requires OnlyWanted(now, uuid, should) && p in should
    ensures OnlyWanted(now[id := p], uuid, should)
  {
  }

  function WantedPools(key: NamespacedName, uuid: string, ours: seq<Pool>): (should: seq<CloudPool>)
    ensures |should| == |ours|
    ensures forall i :: 0 <= i < |ours| ==> should[i] == WantedPool(key, uuid, ours[i])
  {
    seq(|ours|, i requires 0 <= i < |ours| => WantedPool(key, uuid, ours[i]))
  }

  /** The list call, the deletes and the creates stand in this relation to each other. */
  ghost predicate Working(listed: seq<(string, CloudPool)>, before: Rows, steps: seq<Rows>, now: Rows, uuid: string,
                          should: seq<CloudPool>, theirs: seq<string>) {
    && Underway(before, steps, now, uuid, should) && Mapped(listed, before, now, should, theirs)
    && CreatedFor(before, now, should, |theirs|) && OnlyWanted(now, uuid, should)
  }

  lemma FoundStep(listed: seq<(string, CloudPool)>, before: Rows, steps: seq<Rows>, now: Rows, uuid: string,
                  should: seq<CloudPool>, theirs: seq<string>)
    requires Working(listed, before, steps, now, uuid, should, theirs) && |theirs| < |should|
    requires Enumerates(listed, before, OfLb(uuid)) && IndexOf(listed, should[|theirs|]) >= 0
    ensures Working(listed, before, steps, now, uuid, should, theirs + [listed[IndexOf(listed, should[|theirs|])].0])
  {
    MappedFound(listed, before, now, uuid, should, theirs);
    hide Mapped, Between, AllBetween, Unique, AllUnique, Different, IndexOf, OnlyWanted, Enumerates, CreatedFor;
    CreatedMore(before, now, should, |theirs|, "");
  }

  lemma CreatedStep(listed: seq<(string, CloudPool)>, before: Rows, steps: seq<Rows>, now: Rows, next: Rows, ok: bool,
                    uuid: string,
                    should: seq<CloudPool>, theirs: seq<string>, id: string)
    requires Working(listed, before, steps, now, uuid, should, theirs) && |theirs| < |should|
    requires Enumerates(listed, before, OfLb(uuid)) && IndexOf(listed, should[|theirs|]) < 0 &&
      should[|theirs|].lb == uuid
    requires id !in before && id !in now
    requires (next == now || next == now[id := should[|theirs|]]) && (ok ==> next == now[id := should[|theirs|]])
    ensures Underway(before, steps + [next], next, uuid, should)
    ensures ok ==> Working(listed, before, steps + [next], next, uuid, should, theirs + [id])
  {
    var p := should[|theirs|];
    NotYet(listed, before, now, uuid, should, |theirs|);
    CreateStep(before, steps, now, next, uuid, should, id, p);
    hide Underway, Mapped, IndexOf, OnlyWanted, Enumerates, CreatedFor, Has, Different;
    MappedCreated(listed, before, now, should, theirs, id);
    CreatedMore(before, now, should, |theirs|, id);
    OnlyWantedMore(now, uuid, should, id, p);
  }

  /** Whatever is new got an identifier never used before. */
  ghost predicate NewIds(before: Rows, minted: set<string>, now: Rows) {
    forall id :: id in now ==> id in before || id !in minted
  }

  /** Lines 712-740: find or create a cloud pool for every wanted pool, in order. */
  method MapPools(t: Table<CloudPool>, listed: seq<(string, CloudPool)>, uuid: string, should: seq<CloudPool>,
                  ghost before: Rows, ghost done: seq<Rows>)
    returns (ok: bool, theirs: seq<string>, ghost steps: seq<Rows>)
    requires t.Valid() && before.Keys <= t.minted && Enumerates(listed, before, OfLb(uuid))
    requires forall i :: 0 <= i < |should| ==> should[i].lb == uuid
    requires Working(listed, before, done, t.rows, uuid, should, [])
    modifies t
    ensures t.Valid() && old(t.minted) <= t.minted && t.log == old(t.log) + steps
    ensures Underway(before, done + steps, t.rows, uuid, should)
    ensures ok ==> |theirs| == |should| && Working(listed, before, done + steps, t.rows, uuid, should, theirs)
    ensures (forall i :: 0 <= i < |should| ==> IndexOf(listed, should[i]) >= 0) ==>
      ok && steps == [] && t.rows == old(t.rows) && t.minted == old(t.minted)
    ensures NewIds(old(t.rows), old(t.minted), t.rows)
    ensures t.failures == old(t.failures) + if ok then 0 else 1
  {
    hide Traced, Working, Underway, Enumerates, IndexOf;
    steps, theirs := [], [];
    assert done + steps == done;
    while |theirs| < |should|
      invariant |theirs| <= |should| && t.Valid() && old(t.minted) <= t.minted && t.log == old(t.log) + steps
      invariant Working(listed, before, done + steps, t.rows, uuid, should, theirs) &&
        NewIds(old(t.rows), old(t.minted), t.rows)
      invariant (forall i :: 0 <= i < |should| ==> IndexOf(listed, should[i]) >= 0) ==>
        steps == [] && t.rows == old(t.rows) && t.minted == old(t.minted)
      invariant t.failures == old(t.failures)
      decreases |should| - |theirs|
    {
      var p := should[|theirs|];
      var ai := IndexOf(listed, p);
      if ai >= 0 {
        FoundStep(listed, before, done + steps, t.rows, uuid, should, theirs);
        theirs := theirs + [listed[ai].0];
      } else {
        ghost var now := t.rows;
        var id;
        ok, id := t.Create(p);
        CreatedStep(listed, before, done + steps, now, t.rows, ok, uuid, should, theirs, id);
        assert done + steps + [t.rows] == done + (steps + [t.rows]);
        steps := steps + [t.rows];
        if !ok {
          return;
        }
        theirs := theirs + [id];
      }
    }
    ok := true;
    WorkingUnderway(listed, before, done + steps, t.rows, uuid, should, theirs);
  }

  lemma WorkingUnderway(listed: seq<(string, CloudPool)>, before: Rows, steps: seq<Rows>, now: Rows, uuid: string,
                        should: seq<CloudPool>, theirs: seq<string>)
    requires Working(listed, before, steps, now, uuid, should, theirs)
    ensures Underway(before, steps, now, uuid, should) && OnlyWanted(now, uuid, should)
    ensures |theirs| == |should| ==> Converged(now, uuid, should)
  {
    hide IndexOf;
  }

  /** The pool mapping handed to the rest of the reconciliation. */
  ghost predicate Maps(rows: Rows, should: seq<CloudPool>, ours: seq<Pool>, mapping: seq<(Pool, string)>) {
    |mapping| == |ours| == |should| &&
    forall i :: 0 <= i < |mapping| ==>
      mapping[i].0 == ours[i] && mapping[i].1 in rows && rows[mapping[i].1] == should[i]
  }

  /** Two positions of the mapping share a cloud pool exactly when their wanted pools are equal and a
      matching pool existed before; so with distinct names the mapping is injective. */
  ghost predicate Shares(before: Rows, should: seq<CloudPool>, mapping: seq<(Pool, string)>) {
    |mapping| == |should| &&
    forall i, j :: 0 <= i < j < |mapping| ==>
      (mapping[i].1 == mapping[j].1 <==> should[i] == should[j] && Has(before, should[i]))
  }

  /** `ensureLoadBalancerPools`. */
  method EnsurePools(t: Table<CloudPool>, key: NamespacedName, uuid: string, ours: seq<Pool>)
    returns (ok: bool, mapping: seq<(Pool, string)>, ghost steps: seq<Rows>)
    requires t.Valid()
    modifies t
    ensures t.Valid() && old(t.minted) <= t.minted && t.log == old(t.log) + steps
    ensures Underway(old(t.rows), steps, t.rows, uuid, WantedPools(key, uuid, ours))
    ensures ok ==>
      Converged(t.rows, uuid, WantedPools(key, uuid, ours)) && Maps(t.rows, WantedPools(key, uuid, ours), ours, mapping)
    ensures ok ==> Shares(old(t.rows), WantedPools(key, uuid, ours), mapping)
    ensures ok ==> |mapping| == |ours| && forall i :: 0 <= i < |ours| ==>
      mapping[i].0 == ours[i] && mapping[i].1 in t.rows && AsSpecified(t.rows[mapping[i].1], key, uuid, ours[i])
    ensures ok ==> forall id :: id in t.rows && t.rows[id].lb == uuid ==>
      exists i :: 0 <= i < |ours| && AsSpecified(t.rows[id], key, uuid, ours[i])
    ensures Converged(old(t.rows), uuid, WantedPools(key, uuid, ours)) ==>
      steps == [] && t.rows == old(t.rows) && t.minted == old(t.minted)
    ensures NewIds(old(t.rows), old(t.minted), t.rows)
    ensures t.failures == old(t.failures) + if ok then 0 else 1
  {
    hide Traced, Underway, Working, Enumerates, IndexOf, Converged, Maps, Shares, WantedPool, AsSpecified;
    mapping, steps := [], [];
    var should := WantedPools(key, uuid, ours);
    assert forall i :: 0 <= i < |should| ==> should[i].lb == uuid by { WantedOfLb(key, uuid, ours); }
    ghost var before := t.rows;
    NotStarted(before, uuid, should);
    var listed;
    ok, listed := t.List(OfLb(uuid));
    if !ok {
      return;
    }
    ok, steps := DeleteStale(t, listed, uuid, should);
    ConvergedFacts(before, listed, uuid, should);
    if !ok {
      return;
    }
    MappingStarts(listed, before, steps, t.rows, uuid, should);
    ghost var more;
    var theirs;
    ok, theirs, more := MapPools(t, listed, uuid, should, before, steps);
    steps := steps + more;
    if !ok {
      return;
    }
    mapping := seq(|ours|, i requires 0 <= i < |ours| => (ours[i], theirs[i]));
    WorkingUnderway(listed, before, steps, t.rows, uuid, should, theirs);
    MappingFacts(listed, before, steps, t.rows, uuid, should, theirs, ours, mapping);
    MappedAsSpecified(t.rows, key, uuid, ours, mapping);
  }

  lemma MappedAsSpecified(rows: Rows, key: NamespacedName, uuid: string, ours: seq<Pool>, mapping: seq<(Pool, string)>)
    requires Maps(rows, WantedPools(key, uuid, ours), ours, mapping)
    requires Converged(rows, uuid, WantedPools(key, uuid, ours))
    ensures |mapping| == |ours| && forall i :: 0 <= i < |ours| ==>
      mapping[i].0 == ours[i] && mapping[i].1 in rows && AsSpecified(rows[mapping[i].1], key, uuid, ours[i])
    ensures forall id :: id in rows && rows[id].lb == uuid ==>
      exists i :: 0 <= i < |ours| && AsSpecified(rows[id], key, uuid, ours[i])
  {
    var should := WantedPools(key, uuid, ours);
    hide AsSpecified, WantedPool;
    forall i | 0 <= i < |ours| ensures AsSpecified(should[i], key, uuid, ours[i]) {
      WantedPoolExactly(should[i], key, uuid, ours[i]);
    }
    forall id | id in rows && rows[id].lb == uuid
      ensures exists i :: 0 <= i < |ours| && AsSpecified(rows[id], key, uuid, ours[i])
    {
      var i :| 0 <= i < |should| && should[i] == rows[id];
    }
  }

  lemma WantedOfLb(key: NamespacedName, uuid: string, ours: seq<Pool>)
    ensures forall i :: 0 <= i < |ours| ==> WantedPools(key, uuid, ours)[i].lb == uuid
  {
  }

  lemma ConvergedFacts(before: Rows, listed: seq<(string, CloudPool)>, uuid: string, should: seq<CloudPool>)
    requires Enumerates(listed, before, OfLb(uuid)) && forall i :: 0 <= i < |should| ==> should[i].lb == uuid
    ensures Converged(before, uuid, should) ==> OnlyWanted(before, uuid, should)
    ensures Converged(before, uuid, should) ==> forall i :: 0 <= i < |should| ==> IndexOf(listed, should[i]) >= 0
  {
    hide Enumerates, IndexOf;
    forall i | 0 <= i < |should| && Has(before, should[i]) ensures IndexOf(listed, should[i]) >= 0 {
      ListedHas(listed, before, uuid, should[i]);
    }
  }

  lemma MappingStarts(listed: seq<(string, CloudPool)>, before: Rows, steps: seq<Rows>, now: Rows, uuid: string,
                      should: seq<CloudPool>)
    requires Underway(before, steps, now, uuid, should) && OnlyWanted(now, uuid, should) && forall id :: id in now ==>
      id in before
    ensures Working(listed, before, steps, now, uuid, should, [])
  {
  }

  lemma MappingFacts(listed: seq<(string, CloudPool)>, before: Rows, steps: seq<Rows>, now: Rows, uuid: string,
                     should: seq<CloudPool>, theirs: seq<string>, ours: seq<Pool>, mapping: seq<(Pool, string)>)
    requires Working(listed, before, steps, now, uuid, should, theirs) && Enumerates(listed, before, OfLb(uuid))
    requires |theirs| == |should| == |ours| == |mapping|
    requires forall i :: 0 <= i < |should| ==> should[i].lb == uuid && mapping[i] == (ours[i], theirs[i])
    ensures Maps(now, should, ours, mapping) && Shares(before, should, mapping)
  {
    hide IndexOf, Enumerates, Underway, CreatedFor, OnlyWanted;
    forall i, j | 0 <= i < j < |mapping| ensures mapping[i].1 == mapping[j].1 <==>
      should[i] == should[j] && Has(before, should[i]) {
      SharedExactly(listed, before, now, uuid, should, theirs, i, j);
    }
  }

  /** With distinct pool names the mapping is injective. */
  lemma MappingInjective(before: Rows, key: NamespacedName, uuid: string, ours: seq<Pool>,
                         mapping: seq<(Pool, string)>, i: nat, j: nat)
    requires DistinctNames(ours) && Shares(before, WantedPools(key, uuid, ours), mapping) && i < j < |mapping|
    ensures mapping[i].1 != mapping[j].1
  {
    NamesSeparate(key, uuid, ours, WantedPools(key, uuid, ours));
  }
}
