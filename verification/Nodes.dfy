/** From Kubernetes nodes to wanted pool members and to the zone of a new load balancer. */
module Nodes {
  import opened Api
  import opened Orders
  import Members

  /** `rest` stands for everything about a node that the controller does not look at. */
  datatype Node = Node(name: string, labels: map<string, string>, providerID: string, rest: string)

  datatype Address = Address(address: string, subnet: string)
  datatype Interface = Interface(kind: string, addresses: seq<Address>)
  datatype Server = Server(name: string, zone: string, interfaces: seq<Interface>)

  /** How the cloud answers a request for a server: `Empty` is an answer without error and without server. */
  datatype Answer = Found(server: Server) | NotFound | Empty | Failed

  /** What a reconciliation reads besides its object: the nodes by name, whether they can be listed, the
      servers, and which label keys and values are well-formed. */
  datatype Environment = Environment(
    nodes: map<string, Node>, listable: bool, get: string -> Answer, keyOk: string -> bool, valueOk: string -> bool)

  ghost predicate WellNamed(nodes: map<string, Node>) {
    forall name :: name in nodes ==> nodes[name].name == name
  }

  // ---------------------------------------------------------------- selectors

  predicate RequirementOk(env: Environment, r: Requirement) {
    && env.keyOk(r.key)
    && (match r.operator
        case "In" => r.values != []
        case "NotIn" => r.values != []
        case "Exists" => r.values == []
        case "DoesNotExist" => r.values == []
        case _ => false)
    && forall i :: 0 <= i < |r.values| ==> env.valueOk(r.values[i])
  }

  predicate Meets(r: Requirement, labels: map<string, string>) {
    match r.operator
    case "In" => r.key in labels && labels[r.key] in r.values
    case "NotIn" => r.key !in labels || labels[r.key] !in r.values
    case "Exists" => r.key in labels
    case "DoesNotExist" => r.key !in labels
    case _ => false
  }

  /** `LabelSelectorAsSelector` succeeds. */
  predicate Converts(env: Environment, ls: LabelSelector) {
    && (forall k :: k in ls.matchLabels ==> RequirementOk(env, Requirement(k, "In", [ls.matchLabels[k]])))
    && (forall i :: 0 <= i < |ls.matchExpressions| ==> RequirementOk(env, ls.matchExpressions[i]))
  }

  predicate Matches(ls: LabelSelector, labels: map<string, string>) {
    && (forall k :: k in ls.matchLabels ==> Meets(Requirement(k, "In", [ls.matchLabels[k]]), labels))
    && (forall i :: 0 <= i < |ls.matchExpressions| ==> Meets(ls.matchExpressions[i], labels))
  }

  /** What a requirement asks of a label: to have one of the values, or to be there; or the opposite, which a missing
      label satisfies. */
  lemma MeetsExactly(key: string, values: seq<string>, labels: map<string, string>)
    ensures Meets(Requirement(key, "In", values), labels) <==>
            exists i :: 0 <= i < |values| && key in labels && labels[key] == values[i]
    ensures Meets(Requirement(key, "NotIn", values), labels) <==> !Meets(Requirement(key, "In", values), labels)
    ensures Meets(Requirement(key, "Exists", []), labels) <==> key in labels.Keys
    ensures Meets(Requirement(key, "DoesNotExist", []), labels) <==> !Meets(Requirement(key, "Exists", []), labels)
  {
  }

  /** Selectors tell any two different label sets apart. */
  lemma LabelsExactly(a: map<string, string>, b: map<string, string>)
    ensures (forall ls :: Matches(ls, a) <==> Matches(ls, b)) <==> a == b
  {
    if a != b {
      var k :| k in a.Keys + b.Keys && !(k in a && k in b && a[k] == b[k]);
      var r := if k in a && k in b then Requirement(k, "In", [a[k]]) else Requirement(k, "Exists", []);
      var ls := LabelSelector(map[], [r]);
      assert ls.matchExpressions[0] == r;
      assert Matches(ls, a) <==> Meets(r, a);
      assert Matches(ls, b) <==> Meets(r, b);
    }
  }

  // ---------------------------------------------------------------- matching nodes

  function Matched(nodes: map<string, Node>, ls: LabelSelector): set<string> {
    set name | name in nodes && Matches(ls, nodes[name].labels)
  }

  ghost function Names(nodes: seq<Node>): seq<string> {
    seq(|nodes|, i requires 0 <= i < |nodes| => nodes[i].name)
  }

  /** The answer of `matchingNodes`: the matched nodes, each once, by name. */
  ghost predicate Selected(found: seq<Node>, nodes: map<string, Node>, ls: LabelSelector) {
    && Sorted(Compare, Names(found)) && multiset(Names(found)) == multiset(Matched(nodes, ls))
    && forall i :: 0 <= i < |found| ==> found[i].name in nodes && found[i] == nodes[found[i].name]
  }

  /** `matchingNodes`. */
  method MatchingNodes(env: Environment, ls: LabelSelector) returns (found: Option<seq<Node>>)
    requires WellNamed(env.nodes)
    ensures found.Some? <==> Converts(env, ls) && env.listable
    ensures found.Some? ==> Selected(found.value, env.nodes, ls)
  {
    hide Converts, Matches, Sorted, WellNamed, Selected;
    if !Converts(env, ls) || !env.listable {
      return None;
    }
    var names := ListSet(Matched(env.nodes, ls));
    forall i | 0 <= i < |names| ensures names[i] in env.nodes {
      assert names[i] in names;
    }
    var r := Lookup(names, env.nodes);
    AnswerSelected(names, env.nodes, ls);
    return Some(r);
  }

  function Lookup(names: seq<string>, nodes: map<string, Node>): (r: seq<Node>)
    requires forall i :: 0 <= i < |names| ==> names[i] in nodes
    ensures |r| == |names| && forall i :: 0 <= i < |r| ==> r[i] == nodes[names[i]]
  {
    seq(|names|, i requires 0 <= i < |names| => nodes[names[i]])
  }

  lemma AnswerSelected(names: seq<string>, nodes: map<string, Node>, ls: LabelSelector)
    requires WellNamed(nodes) && Sorted(Compare, names) && multiset(names) == multiset(Matched(nodes, ls))
    requires forall i :: 0 <= i < |names| ==> names[i] in nodes
    ensures Selected(Lookup(names, nodes), nodes, ls)
  {
    hide Matched, Compare;
    var r := Lookup(names, nodes);
    assert Names(r) == names;
  }

  /** There is only one such answer. */
  lemma SelectedUnique(nodes: map<string, Node>, ls: LabelSelector, a: seq<Node>, b: seq<Node>)
    requires Selected(a, nodes, ls) && Selected(b, nodes, ls)
    ensures a == b
  {
    SelectedAlike(nodes, nodes, ls, a, b);
    forall i | 0 <= i < |a| ensures a[i] == b[i] {
      assert a[i].name == b[i].name;
    }
  }

  /** A node without what the controller does not look at. */
  function Seen(n: Node): Node {
    n.(rest := "")
  }

  ghost predicate Alike(a: map<string, Node>, b: map<string, Node>) {
    a.Keys == b.Keys && forall name :: name in a ==> Seen(a[name]) == Seen(b[name])
  }

  ghost predicate AllAlike(a: seq<Node>, b: seq<Node>) {
    |a| == |b| && forall i :: 0 <= i < |a| ==> Seen(a[i]) == Seen(b[i])
  }

  lemma SelectedAlike(m: map<string, Node>, n: map<string, Node>, ls: LabelSelector, a: seq<Node>, b: seq<Node>)
    requires Alike(m, n) && Selected(a, m, ls) && Selected(b, n, ls)
    ensures AllAlike(a, b)
  {
    forall name | name in m ensures m[name].labels == n[name].labels {
      assert Seen(m[name]).labels == m[name].labels && Seen(n[name]).labels == n[name].labels;
    }
    assert Matched(m, ls) == Matched(n, ls);
    CompareOrdering();
    SortedUnique(Compare, Names(a), Names(b));
    assert |Names(a)| == |a| && |Names(b)| == |b|;
    forall i | 0 <= i < |a| ensures Seen(a[i]) == Seen(b[i]) {
      assert Names(a)[i] == a[i].name && Names(b)[i] == b[i].name;
    }
  }

  // ---------------------------------------------------------------- servers

  const PREFIX := "cloudscale://"

  /** The server identifier in a provider ID. */
  function ServerID(providerID: string): Option<string> {
    if |PREFIX| <= |providerID| && providerID[..|PREFIX|] == PREFIX then Some(providerID[|PREFIX|..]) else None
  }

  /** The server asked for is what follows the scheme, and nothing is asked for without it. */
  lemma ServerIDExactly(providerID: string, id: string)
    ensures ServerID(providerID) == Some(id) <==> providerID == "cloudscale://" + id
  {
    if ServerID(providerID) == Some(id) {
      assert providerID == providerID[..13] + providerID[13..];
    }
  }

  /** What asking for the server of a node yields; a node without usable provider ID counts as not found. */
  function AnswerFor(n: Node, get: string -> Answer): Answer {
    var id := ServerID(n.providerID);
    if id == None then NotFound else get(id.value)
  }

  /** The nodes that have a server, with their servers. */
  function Backed(nodes: seq<Node>, get: string -> Answer): seq<(Node, Server)> {
    if nodes == [] then []
    else
      var last, rest := nodes[|nodes| - 1], Backed(nodes[..|nodes| - 1], get);
      match AnswerFor(last, get)
      case Found(s) => rest + [(last, s)]
      case _ => rest
  }

  ghost predicate NoneFails(nodes: seq<Node>, get: string -> Answer) {
    forall i :: 0 <= i < |nodes| ==> AnswerFor(nodes[i], get) != Failed
  }

  /** `cloudscaleServersForNodes`: nodes without a server are skipped with a warning, any other failure ends
      the work. */
  method ServersForNodes(nodes: seq<Node>, get: string -> Answer)
    returns (servers: Option<seq<(Node, Server)>>, warnings: seq<string>)
    ensures servers.Some? <==> NoneFails(nodes, get)
    ensures servers.Some? ==> servers.value == Backed(nodes, get) && |servers.value| + |warnings| == |nodes|
  {
    warnings := [];
    var found: seq<(Node, Server)> := [];
    for n := 0 to |nodes|
      invariant NoneFails(nodes[..n], get) && found == Backed(nodes[..n], get) && |found| + |warnings| == n
    {
      var node := nodes[n];
      assert nodes[..n + 1][..n] == nodes[..n] && nodes[..n + 1][n] == node;
      var id := ServerID(node.providerID);
      if id == None {
        warnings := warnings + [node.name];
        continue;
      }
      var answer := get(id.value);
      match answer {
        case NotFound => warnings := warnings + [node.name];
        case Failed =>
          assert AnswerFor(nodes[n], get) == Failed;
          return None, [];
        case Empty => warnings := warnings + [node.name];
        case Found(server) => found := found + [(node, server)];
      }
    }
    assert nodes[..|nodes|] == nodes;
    servers := Some(found);
  }

  lemma {:induction false} BackedContents(nodes: seq<Node>, get: string -> Answer, x: (Node, Server))
    ensures x in Backed(nodes, get) <==> x.0 in nodes && AnswerFor(x.0, get) == Found(x.1)
  {
    if nodes != [] {
      var init, last := nodes[..|nodes| - 1], nodes[|nodes| - 1];
      BackedContents(init, get, x);
      assert nodes == init + [last];
    }
  }

  ghost predicate BackedAlike(a: seq<(Node, Server)>, b: seq<(Node, Server)>) {
    |a| == |b| && forall i :: 0 <= i < |a| ==> Seen(a[i].0) == Seen(b[i].0) && a[i].1 == b[i].1
  }

  lemma SeenAnswer(a: Node, b: Node, get: string -> Answer)
    requires Seen(a) == Seen(b)
    ensures AnswerFor(a, get) == AnswerFor(b, get) && a.name == b.name
  {
    assert Seen(a).providerID == a.providerID && Seen(b).providerID == b.providerID;
    assert Seen(a).name == a.name && Seen(b).name == b.name;
  }

  lemma {:induction false} ServersAlike(a: seq<Node>, b: seq<Node>, get: string -> Answer)
    requires AllAlike(a, b)
    ensures BackedAlike(Backed(a, get), Backed(b, get)) && (NoneFails(a, get) <==> NoneFails(b, get))
  {
    forall i | 0 <= i < |a| ensures AnswerFor(a[i], get) == AnswerFor(b[i], get) {
      SeenAnswer(a[i], b[i], get);
    }
    if a != [] {
      ServersAlike(a[..|a| - 1], b[..|b| - 1], get);
    }
  }

  // ---------------------------------------------------------------- wanted members

  function MemberRequest(key: NamespacedName, ours: Pool, node: Node, server: Server, addr: Address): Members.Request {
    Members.Request(
      CloudName(key) + "-" + ours.name + "-" + addr.address + "-" + Decimal(ours.backend.port),
      Some(true), ours.backend.port, ours.backend.health.port, addr.address, addr.subnet, node.name, server.name)
  }

  predicate Usable(ours: Pool, addr: Address) {
    addr.subnet != "" && (ours.backend.allowedSubnets == [] || addr.subnet in ours.backend.allowedSubnets)
  }

  function FromAddresses(key: NamespacedName, ours: Pool, node: Node, server: Server,
                         addrs: seq<Address>): seq<Members.Request> {
    if addrs == [] then []
    else
      var rest, last := FromAddresses(key, ours, node, server, addrs[..|addrs| - 1]), addrs[|addrs| - 1];
      if Usable(ours, last) then rest + [MemberRequest(key, ours, node, server, last)] else rest
  }

  function FromInterfaces(key: NamespacedName, ours: Pool, node: Node, server: Server,
                          infs: seq<Interface>): seq<Members.Request> {
    if infs == [] then []
    else
      var rest, last := FromInterfaces(key, ours, node, server, infs[..|infs| - 1]), infs[|infs| - 1];
      if last.kind == "public" then rest else rest + FromAddresses(key, ours, node, server, last.addresses)
  }

  function FromServers(key: NamespacedName, ours: Pool, servers: seq<(Node, Server)>): seq<Members.Request> {
    if servers == [] then []
    else
      var (node, server) := servers[|servers| - 1];
      FromServers(key, ours, servers[..|servers| - 1]) + FromInterfaces(key, ours, node, server, server.interfaces)
  }

  /** The place of an address: server, interface of the server, address of the interface. */
  datatype Place = Place(server: int, interface: int, address: int)

  /** The order in which the loops pass the places. */
  ghost predicate Earlier(p: Place, q: Place) {
    p.server < q.server || (p.server == q.server &&
                              (p.interface < q.interface || (p.interface == q.interface && p.address < q.address)))
  }

  /** The place holds a usable address on a private interface. */
  ghost predicate UsableAt(ours: Pool, servers: seq<(Node, Server)>, p: Place) {
    && 0 <= p.server < |servers|
    && var infs := servers[p.server].1.interfaces;
       && 0 <= p.interface < |infs| && infs[p.interface].kind != "public"
       && 0 <= p.address < |infs[p.interface].addresses| && Allowed(ours, infs[p.interface].addresses[p.address])
  }

  /** The address is in a subnet, and in an allowed one if the pool names any. */
  ghost predicate Allowed(ours: Pool, addr: Address) {
    && addr.subnet != ""
    && (|ours.backend.allowedSubnets| > 0 ==>
          exists i :: 0 <= i < |ours.backend.allowedSubnets| && ours.backend.allowedSubnets[i] == addr.subnet)
  }

  lemma UsableExactly(ours: Pool, addr: Address)
    ensures Usable(ours, addr) <==> Allowed(ours, addr)
  {
  }

  /** The request is that for the address at the place. */
  ghost predicate RequestsAt(key: NamespacedName, ours: Pool, servers: seq<(Node, Server)>, p: Place,
                             r: Members.Request)
    requires UsableAt(ours, servers, p)
  {
    var (node, server) := servers[p.server];
    AsksFor(r, key, ours, node, server, server.interfaces[p.interface].addresses[p.address])
  }

  /** A request for an address of the server of a node, field by field. */
  ghost predicate AsksFor(r: Members.Request, key: NamespacedName, ours: Pool, node: Node, server: Server,
                          addr: Address) {
    && r.enabled == Some(true) && r.address == addr.address && r.subnet == addr.subnet
    && r.protocolPort == ours.backend.port && r.monitorPort == ours.backend.health.port
    && r.nodeName == node.name && r.serverName == server.name
    && r.name == "appuio_io_loadbalancer_controller-" + key.namespace + "-" + key.name + "-" + ours.name + "-"
                 + addr.address + "-" + Decimal(ours.backend.port)
  }

  lemma MemberRequestExactly(r: Members.Request, key: NamespacedName, ours: Pool, node: Node, server: Server,
                             addr: Address)
    ensures r == MemberRequest(key, ours, node, server, addr) <==> AsksFor(r, key, ours, node, server, addr)
  {
  }

  /** One request for each usable place before `here`, in order; `at` holds the places. */
  ghost predicate OnePerPlace(key: NamespacedName, ours: Pool, servers: seq<(Node, Server)>, here: Place,
                              at: seq<Place>, should: seq<Members.Request>) {
    && |at| == |should| && (forall i, j :: 0 <= i < j < |at| ==> Earlier(at[i], at[j]))
    && (forall i :: 0 <= i < |at| ==>
          UsableAt(ours, servers, at[i]) && Earlier(at[i], here) && RequestsAt(key, ours, servers, at[i], should[i]))
    && (forall p :: UsableAt(ours, servers, p) && Earlier(p, here) ==> p in at)
  }

  /** Passing over places that are not usable. */
  lemma PassOver(key: NamespacedName, ours: Pool, servers: seq<(Node, Server)>, here: Place, next: Place,
                 at: seq<Place>, should: seq<Members.Request>)
    requires OnePerPlace(key, ours, servers, here, at, should)
    requires forall p :: Earlier(p, here) ==> Earlier(p, next)
    requires forall p :: UsableAt(ours, servers, p) && Earlier(p, next) ==> Earlier(p, here)
    ensures OnePerPlace(key, ours, servers, next, at, should)
  {
    hide UsableAt, Earlier;
  }

  /** Passing a usable place. */
  lemma Pass(key: NamespacedName, ours: Pool, servers: seq<(Node, Server)>, here: Place, at: seq<Place>,
             should: seq<Members.Request>, r: Members.Request)
    requires OnePerPlace(key, ours, servers, here, at, should) && UsableAt(ours, servers, here)
    requires RequestsAt(key, ours, servers, here, r)
    ensures OnePerPlace(key, ours, servers, here.(address := here.address + 1), at + [here], should + [r])
  {
    hide UsableAt, RequestsAt;
  }

  /** Lines 293-325: the wanted members of a pool, one for each usable address on each private interface of each
      server, in order; `at` says where each comes from. */
  method WantedMembers(key: NamespacedName, ours: Pool, servers: seq<(Node, Server)>)
    returns (should: seq<Members.Request>, ghost at: seq<Place>)
    ensures should == FromServers(key, ours, servers)
    ensures OnePerPlace(key, ours, servers, Place(|servers|, 0, 0), at, should)
  {
    should, at := [], [];
    for i := 0 to |servers|
      invariant should == FromServers(key, ours, servers[..i])
      invariant OnePerPlace(key, ours, servers, Place(i, 0, 0), at, should)
    {
      var (node, server) := servers[i];
      assert servers[..i + 1][..i] == servers[..i];
      should, at := AddInterfaces(key, ours, servers, i, at, should);
      PassOver(key, ours, servers, Place(i, |server.interfaces|, 0), Place(i + 1, 0, 0), at, should);
      hide OnePerPlace, FromInterfaces;
    }
    assert servers[..|servers|] == servers;
  }

  method AddInterfaces(key: NamespacedName, ours: Pool, servers: seq<(Node, Server)>, i: nat,
                       ghost places: seq<Place>, before: seq<Members.Request>)
    returns (should: seq<Members.Request>, ghost at: seq<Place>)
    requires i < |servers| && OnePerPlace(key, ours, servers, Place(i, 0, 0), places, before)
    ensures should == before + FromInterfaces(key, ours, servers[i].0, servers[i].1, servers[i].1.interfaces)
    ensures OnePerPlace(key, ours, servers, Place(i, |servers[i].1.interfaces|, 0), at, should)
  {
    hide OnePerPlace, FromAddresses;
    var (node, server) := servers[i];
    var infs := server.interfaces;
    should, at := before, places;
    for j := 0 to |infs|
      invariant should == before + FromInterfaces(key, ours, node, server, infs[..j])
      invariant OnePerPlace(key, ours, servers, Place(i, j, 0), at, should)
    {
      assert infs[..j + 1][..j] == infs[..j];
      if infs[j].kind == "public" {
        PassOver(key, ours, servers, Place(i, j, 0), Place(i, j + 1, 0), at, should);
        continue;
      }
      should, at := AddAddresses(key, ours, servers, i, j, at, should);
      PassOver(key, ours, servers, Place(i, j, |infs[j].addresses|), Place(i, j + 1, 0), at, should);
    }
    assert infs[..|infs|] == infs;
  }

  method AddAddresses(key: NamespacedName, ours: Pool, servers: seq<(Node, Server)>, i: nat, j: nat,
                      ghost places: seq<Place>, before: seq<Members.Request>)
    returns (should: seq<Members.Request>, ghost at: seq<Place>)
    requires i < |servers| && j < |servers[i].1.interfaces| && servers[i].1.interfaces[j].kind != "public"
    requires OnePerPlace(key, ours, servers, Place(i, j, 0), places, before)
    ensures should == before +
              FromAddresses(key, ours, servers[i].0, servers[i].1, servers[i].1.interfaces[j].addresses)
    ensures OnePerPlace(key, ours, servers, Place(i, j, |servers[i].1.interfaces[j].addresses|), at, should)
  {
    hide OnePerPlace, Usable, Allowed, MemberRequest, AsksFor;
    var (node, server) := servers[i];
    var addrs := server.interfaces[j].addresses;
    should, at := before, places;
    for k := 0 to |addrs|
      invariant should == before + FromAddresses(key, ours, node, server, addrs[..k])
      invariant OnePerPlace(key, ours, servers, Place(i, j, k), at, should)
    {
      assert addrs[..k + 1][..k] == addrs[..k];
      UsableExactly(ours, addrs[k]);
      if !Usable(ours, addrs[k]) {
        PassOver(key, ours, servers, Place(i, j, k), Place(i, j, k + 1), at, should);
        continue;
      }
      var r := MemberRequest(key, ours, node, server, addrs[k]);
      MemberRequestExactly(r, key, ours, node, server, addrs[k]);
      Pass(key, ours, servers, Place(i, j, k), at, should, r);
      should, at := should + [r], at + [Place(i, j, k)];
    }
    assert addrs[..|addrs|] == addrs;
  }

  /** A usable address on a private interface of a server. */
  ghost predicate Offers(ours: Pool, server: Server, addr: Address) {
    Usable(ours, addr) && exists j ::
      0 <= j < |server.interfaces| && server.interfaces[j].kind != "public" && addr in server.interfaces[j].addresses
  }

  ghost predicate Wants(key: NamespacedName, ours: Pool, servers: seq<(Node, Server)>, r: Members.Request) {
    exists i, addr :: 0 <= i < |servers| && Offers(ours, servers[i].1, addr) &&
      r == MemberRequest(key, ours, servers[i].0, servers[i].1, addr)
  }

  lemma {:induction false} AddressesExactly(key: NamespacedName, ours: Pool, node: Node, server: Server,
                                            addrs: seq<Address>, r: Members.Request)
    ensures r in FromAddresses(key, ours, node, server, addrs) <==>
            exists addr :: addr in addrs && Usable(ours, addr) && r == MemberRequest(key, ours, node, server, addr)
  {
    if addrs != [] {
      var init, last := addrs[..|addrs| - 1], addrs[|addrs| - 1];
      AddressesExactly(key, ours, node, server, init, r);
      assert addrs == init + [last];
      hide Usable, MemberRequest;
    }
  }

  ghost predicate WantsFrom(key: NamespacedName, ours: Pool, node: Node, server: Server, infs: seq<Interface>,
                            r: Members.Request) {
    exists j, addr :: 0 <= j < |infs| && infs[j].kind != "public" && addr in infs[j].addresses && Usable(ours, addr)
                      && r == MemberRequest(key, ours, node, server, addr)
  }

  lemma {:induction false} InterfacesExactly(key: NamespacedName, ours: Pool, node: Node, server: Server,
                                             infs: seq<Interface>, r: Members.Request)
    ensures r in FromInterfaces(key, ours, node, server, infs) <==> WantsFrom(key, ours, node, server, infs, r)
  {
    if infs != [] {
      var init, last := infs[..|infs| - 1], infs[|infs| - 1];
      InterfacesExactly(key, ours, node, server, init, r);
      AddressesExactly(key, ours, node, server, last.addresses, r);
      hide Usable, MemberRequest, FromAddresses;
      if r in FromInterfaces(key, ours, node, server, infs) {
        if r in FromInterfaces(key, ours, node, server, init) {
          var j, addr :| 0 <= j < |init| && init[j].kind != "public" && addr in init[j].addresses && Usable(ours, addr)
                         && r == MemberRequest(key, ours, node, server, addr);
          assert infs[j] == init[j];
        } else {
          assert infs[|init|] == last;
        }
      }
      if WantsFrom(key, ours, node, server, infs, r) {
        var j, addr :| 0 <= j < |infs| && infs[j].kind != "public" && addr in infs[j].addresses && Usable(ours, addr)
                       && r == MemberRequest(key, ours, node, server, addr);
        if j < |init| {
          assert infs[j] == init[j];
        }
      }
    }
  }

  lemma {:induction false} WantsExactly(key: NamespacedName, ours: Pool, servers: seq<(Node, Server)>,
                                         r: Members.Request)
    ensures r in FromServers(key, ours, servers) <==> Wants(key, ours, servers, r)
  {
    if servers != [] {
      var init := servers[..|servers| - 1];
      var (node, server) := servers[|servers| - 1];
      WantsExactly(key, ours, init, r);
      InterfacesExactly(key, ours, node, server, server.interfaces, r);
      assert WantsFrom(key, ours, node, server, server.interfaces, r) <==>
        exists addr :: Offers(ours, server, addr) && r == MemberRequest(key, ours, node, server, addr);
      hide Offers, MemberRequest, FromInterfaces, WantsFrom;
      if Wants(key, ours, init, r) {
        var i, addr :| 0 <= i < |init| && Offers(ours, init[i].1, addr) &&
          r == MemberRequest(key, ours, init[i].0, init[i].1, addr);
        assert servers[i] == init[i];
      }
      if Wants(key, ours, servers, r) {
        var i, addr :| 0 <= i < |servers| && Offers(ours, servers[i].1, addr) &&
          r == MemberRequest(key, ours, servers[i].0, servers[i].1, addr);
        if i < |init| {
          assert servers[i] == init[i];
        }
      }
      assert servers[|init|] == (node, server);
    }
  }

  ghost predicate Requested(key: NamespacedName, ours: Pool, servers: seq<(Node, Server)>, r: Members.Request) {
    exists p :: UsableAt(ours, servers, p) && RequestsAt(key, ours, servers, p, r)
  }

  /** A request is among the wanted ones if and only if it is that for an address, in a subnet the pool allows, on an
      interface that is not public, of some server. */
  lemma WantedExactly(key: NamespacedName, ours: Pool, servers: seq<(Node, Server)>, r: Members.Request)
    ensures r in FromServers(key, ours, servers) <==> Requested(key, ours, servers, r)
  {
    WantsExactly(key, ours, servers, r);
    hide FromServers, MemberRequest, AsksFor, Usable, Allowed;
    if Wants(key, ours, servers, r) {
      var i, addr :| 0 <= i < |servers| && Offers(ours, servers[i].1, addr) &&
        r == MemberRequest(key, ours, servers[i].0, servers[i].1, addr);
      var infs := servers[i].1.interfaces;
      var j :| 0 <= j < |infs| && infs[j].kind != "public" && addr in infs[j].addresses;
      var k :| 0 <= k < |infs[j].addresses| && infs[j].addresses[k] == addr;
      UsableExactly(ours, addr);
      MemberRequestExactly(r, key, ours, servers[i].0, servers[i].1, addr);
      assert UsableAt(ours, servers, Place(i, j, k)) && RequestsAt(key, ours, servers, Place(i, j, k), r);
    }
    if Requested(key, ours, servers, r) {
      var p :| UsableAt(ours, servers, p) && RequestsAt(key, ours, servers, p, r);
      var (node, server) := servers[p.server];
      var addr := server.interfaces[p.interface].addresses[p.address];
      UsableExactly(ours, addr);
      MemberRequestExactly(r, key, ours, node, server, addr);
      assert Offers(ours, server, addr);
    }
  }

  lemma {:induction false} RequestsAlike(key: NamespacedName, ours: Pool, a: Node, b: Node, server: Server,
                                         addrs: seq<Address>)
    requires a.name == b.name
    ensures FromAddresses(key, ours, a, server, addrs) == FromAddresses(key, ours, b, server, addrs)
  {
    if addrs != [] {
      RequestsAlike(key, ours, a, b, server, addrs[..|addrs| - 1]);
    }
  }

  lemma {:induction false} InterfacesAlike(key: NamespacedName, ours: Pool, a: Node, b: Node, server: Server,
                                           infs: seq<Interface>)
    requires a.name == b.name
    ensures FromInterfaces(key, ours, a, server, infs) == FromInterfaces(key, ours, b, server, infs)
  {
    if infs != [] {
      InterfacesAlike(key, ours, a, b, server, infs[..|infs| - 1]);
      RequestsAlike(key, ours, a, b, server, infs[|infs| - 1].addresses);
    }
  }

  lemma {:induction false} WantedAlike(key: NamespacedName, ours: Pool, a: seq<(Node, Server)>, b: seq<(Node, Server)>)
    requires BackedAlike(a, b)
    ensures FromServers(key, ours, a) == FromServers(key, ours, b)
  {
    if a != [] {
      WantedAlike(key, ours, a[..|a| - 1], b[..|b| - 1]);
      var x, y := a[|a| - 1], b[|b| - 1];
      SeenAnswer(x.0, y.0, _ => Empty);
      InterfacesAlike(key, ours, x.0, y.0, x.1, x.1.interfaces);
    }
  }
}
