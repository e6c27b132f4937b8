/** `guessLoadbalancerZone`. */
module Zones {
  import opened Api
  import opened Orders
  import opened Nodes

  /** The zones of the servers behind the nodes a selector matches. */
  ghost function PoolZones(env: Environment, ls: LabelSelector): set<string> {
    set name | name in Matched(env.nodes, ls) && AnswerFor(env.nodes[name], env.get).Found?
               && AnswerFor(env.nodes[name], env.get).server.zone != "" :: AnswerFor(env.nodes[name],
                   env.get).server.zone
  }

  /** Everything about the pool can be read. */
  ghost predicate PoolReadable(env: Environment, ls: LabelSelector) {
    Converts(env, ls) && env.listable && forall name :: name in Matched(env.nodes, ls) ==>
      AnswerFor(env.nodes[name], env.get) != Failed
  }

  ghost predicate Readable(env: Environment, pools: set<Pool>) {
    forall p :: p in pools ==> PoolReadable(env, p.backend.nodeSelector)
  }

  /** The zones of all servers of all pools; neither the order of pools nor that of nodes matters. */
  ghost function ZonesOf(env: Environment, pools: set<Pool>): set<string> {
    set p, z | p in pools && z in PoolZones(env, p.backend.nodeSelector) :: z
  }

  ghost function PoolSet(pools: seq<Pool>): set<Pool> {
    set p | p in pools
  }

  lemma OneMore(env: Environment, pools: seq<Pool>, n: nat)
    requires n < |pools|
    ensures PoolSet(pools[..n + 1]) == PoolSet(pools[..n]) + {pools[n]}
    ensures ZonesOf(env, PoolSet(pools[..n + 1])) == ZonesOf(env, PoolSet(pools[..n])) + PoolZones(env,
        pools[n].backend.nodeSelector)
  {
    assert pools[..n + 1] == pools[..n] + [pools[n]];
    hide PoolZones;
  }

  ghost function ServerZones(servers: seq<(Node, Server)>): set<string> {
    set i | 0 <= i < |servers| && servers[i].1.zone != "" :: servers[i].1.zone
  }

  lemma SelectedNames(env: Environment, ls: LabelSelector, found: seq<Node>, name: string)
    requires WellNamed(env.nodes) && Selected(found, env.nodes, ls)
    ensures name in Matched(env.nodes, ls) <==> name in env.nodes && env.nodes[name] in found
  {
    hide Matches, Sorted;
    var names := Names(found);
    if name in Matched(env.nodes, ls) {
      assert name in multiset(names);
      var i :| 0 <= i < |names| && names[i] == name;
      assert found[i] == env.nodes[name];
    }
    if name in env.nodes && env.nodes[name] in found {
      var i :| 0 <= i < |found| && found[i] == env.nodes[name];
      assert names[i] == name && name in multiset(names);
    }
  }

  /** The servers found for a pool have the pool's zones, and nothing failed exactly if it is readable. */
  lemma FoundZones(env: Environment, ls: LabelSelector, found: seq<Node>)
    requires WellNamed(env.nodes) && Selected(found, env.nodes, ls) && Converts(env, ls) && env.listable
    ensures PoolReadable(env, ls) <==> NoneFails(found, env.get)
    ensures ServerZones(Backed(found, env.get)) == PoolZones(env, ls)
  {
    hide Converts, Matches, Matched, AnswerFor, Backed;
    var servers := Backed(found, env.get);
    forall i | 0 <= i < |found| ensures found[i].name in Matched(env.nodes, ls) &&
      found[i] == env.nodes[found[i].name] {
      SelectedNames(env, ls, found, found[i].name);
    }
    forall name | name in Matched(env.nodes, ls) ensures name in env.nodes && env.nodes[name] in found {
      SelectedNames(env, ls, found, name);
    }
    hide Selected, WellNamed;
    forall i | 0 <= i < |servers| && servers[i].1.zone != "" ensures servers[i].1.zone in PoolZones(env, ls) {
      BackedContents(found, env.get, servers[i]);
      assert servers[i].0.name in Matched(env.nodes, ls);
    }
    forall z | z in PoolZones(env, ls) ensures z in ServerZones(servers) {
      var name :| name in Matched(env.nodes, ls) && AnswerFor(env.nodes[name], env.get).Found? &&
        AnswerFor(env.nodes[name], env.get).server.zone == z;
      BackedContents(found, env.get, (env.nodes[name], AnswerFor(env.nodes[name], env.get).server));
    }
  }

  method CollectZones(servers: seq<(Node, Server)>, before: set<string>) returns (zones: set<string>)
    ensures zones == before + ServerZones(servers)
  {
    zones := before;
    for i := 0 to |servers|
      invariant zones == before + ServerZones(servers[..i])
    {
      assert servers[..i + 1] == servers[..i] + [servers[i]];
      ZonesMore(servers[..i], servers[i]);
      var zone := servers[i].1.zone;
      if zone != "" {
        zones := zones + {zone};
      }
    }
    assert servers[..|servers|] == servers;
  }

  lemma ZonesMore(servers: seq<(Node, Server)>, x: (Node, Server))
    ensures ServerZones(servers + [x]) == ServerZones(servers) + if x.1.zone != "" then {x.1.zone} else {}
  {
    var all := servers + [x];
    assert all[|servers|] == x && forall i :: 0 <= i < |servers| ==> all[i] == servers[i];
    forall z | z in ServerZones(servers) + if x.1.zone != "" then {x.1.zone} else {} ensures z in ServerZones(all) {
      if z in ServerZones(servers) {
        var i :| 0 <= i < |servers| && servers[i].1.zone == z;
        assert all[i].1.zone == z;
      } else {
        assert all[|servers|].1.zone == z;
      }
    }
  }

  /** The guess is `z` exactly when everything can be read and the servers' zones are just `z`. */
  method GuessZone(env: Environment, pools: seq<Pool>) returns (zone: Option<string>)
    requires WellNamed(env.nodes)
    ensures forall z :: zone == Some(z) <==> Readable(env, PoolSet(pools)) && ZonesOf(env, PoolSet(pools)) == {z}
    ensures zone != Some("")
  {
    hide WellNamed, PoolReadable, PoolZones, Converts, Selected, Backed, NoneFails, ServerZones, Matched;
    var zones: set<string> := {};
    for n := 0 to |pools|
      invariant Readable(env, PoolSet(pools[..n])) && zones == ZonesOf(env, PoolSet(pools[..n]))
    {
      OneMore(env, pools, n);
      var ls := pools[n].backend.nodeSelector;
      var found := MatchingNodes(env, ls);
      if found == None {
        Unreadable(env, pools, n);
        return None;
      }
      FoundZones(env, ls, found.value);
      var servers, warnings := ServersForNodes(found.value, env.get);
      if servers == None {
        Unreadable(env, pools, n);
        return None;
      }
      zones := CollectZones(servers.value, zones);
    }
    assert pools[..|pools|] == pools;
    var all := ListSet(zones);
    if |all| != 1 {
      assert forall z :: zones != {z};
      return None;
    }
    OneElement(zones, all);
    assert "" !in zones by { NoEmptyZone(env, PoolSet(pools)); }
    return Some(all[0]);
  }

  lemma NoEmptyZone(env: Environment, pools: set<Pool>)
    ensures "" !in ZonesOf(env, pools)
  {
  }

  lemma OneElement(zones: set<string>, all: seq<string>)
    requires |all| == 1 && forall x :: x in all <==> x in zones
    ensures zones == {all[0]}
  {
  }

  lemma Unreadable(env: Environment, pools: seq<Pool>, n: nat)
    requires n < |pools|
    requires !PoolReadable(env, pools[n].backend.nodeSelector) || !Converts(env, pools[n].backend.nodeSelector) ||
      !env.listable
    ensures !Readable(env, PoolSet(pools))
  {
    assert pools[n] in PoolSet(pools);
  }
}
