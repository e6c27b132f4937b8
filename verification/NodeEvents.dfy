/** `nodeUpdateHandler`: which node events requeue the load balancers, and why the others need not. */
module NodeEvents {
  import opened Api
  import opened Nodes
  import opened Zones

  /** The work queue: adding a request that is already queued has no effect. */
  class Queue {
    var items: set<NamespacedName>

    constructor()
      ensures items == {}
    {
      items := {};
    }

    method Add(key: NamespacedName)
      modifies this
      ensures items == old(items) + {key}
    {
      items := items + {key};
    }
  }

  ghost function Keys(lbs: Option<seq<NamespacedName>>): set<NamespacedName> {
    if lbs == None then {} else set key | key in lbs.value
  }

  /** `queueAllLoadBalancers`; `None` stands for a failed list call. */
  method QueueAll(q: Queue, lbs: Option<seq<NamespacedName>>)
    modifies q
    ensures q.items == old(q.items) + Keys(lbs)
  {
    if lbs == None {
      return;
    }
    for n := 0 to |lbs.value|
      invariant q.items == old(q.items) + Keys(Some(lbs.value[..n]))
    {
      q.Add(lbs.value[n]);
      assert lbs.value[..n + 1] == lbs.value[..n] + [lbs.value[n]];
    }
    assert lbs.value[..|lbs.value|] == lbs.value;
  }

  datatype Event =
    | Created(node: Node, initial: bool)
    | Updated(before: Node, after: Node)
    | Deleted(gone: Node)
    | Generic

  /** The events after which everything is requeued. */
  predicate Requeues(e: Event) {
    match e
    case Created(_, initial) => !initial
    case Updated(o, n) => !(o.providerID == n.providerID && o.labels == n.labels)
    case Deleted(_) => true
    case Generic => true
  }

  method Create(q: Queue, e: Event, lbs: Option<seq<NamespacedName>>)
    requires e.Created?
    modifies q
    ensures q.items == old(q.items) + if e.initial then {} else Keys(lbs)
    ensures q.items == old(q.items) + if Requeues(e) then Keys(lbs) else {}
  {
    if e.initial {
      return;
    }
    QueueAll(q, lbs);
  }

  method Update(q: Queue, e: Event, lbs: Option<seq<NamespacedName>>)
    requires e.Updated?
    modifies q
    ensures q.items == old(q.items) + if e.before.providerID != e.after.providerID ||
      e.before.labels != e.after.labels then Keys(lbs) else {}
    ensures q.items == old(q.items) + if Requeues(e) then Keys(lbs) else {}
  {
    var o, n := e.before, e.after;
    if o.providerID == n.providerID && o.labels == n.labels {
      return;
    }
    QueueAll(q, lbs);
  }

  method Delete(q: Queue, e: Event, lbs: Option<seq<NamespacedName>>)
    requires e.Deleted?
    modifies q
    ensures q.items == old(q.items) + Keys(lbs)
    ensures q.items == old(q.items) + if Requeues(e) then Keys(lbs) else {}
  {
    QueueAll(q, lbs);
  }

  // ---------------------------------------------------------------- soundness

  /** An event as the cluster produces it. */
  ghost predicate Happens(nodes: map<string, Node>, e: Event) {
    match e
    case Created(n, _) => n.name !in nodes
    case Updated(o, n) => o.name in nodes && nodes[o.name] == o && n.name == o.name
    case Deleted(o) => o.name in nodes && nodes[o.name] == o
    case Generic => true
  }

  ghost function After(nodes: map<string, Node>, e: Event): map<string, Node> {
    match e
    case Created(n, _) => nodes[n.name := n]
    case Updated(_, n) => nodes[n.name := n]
    case Deleted(o) => nodes - {o.name}
    case Generic => nodes
  }

  ghost predicate Course(nodes: map<string, Node>, events: seq<Event>)
    decreases |events|
  {
    events != [] ==> Happens(nodes, events[0]) && Course(After(nodes, events[0]), events[1..])
  }

  ghost function Outcome(nodes: map<string, Node>, events: seq<Event>): map<string, Node>
    decreases |events|
  {
    if events == [] then nodes else Outcome(After(nodes, events[0]), events[1..])
  }

  /** No event of the course requeues anything, and none belongs to the initial list. */
  ghost predicate Quiet(events: seq<Event>) {
    forall i :: 0 <= i < |events| ==> events[i].Updated? && !Requeues(events[i])
  }

  /** A course of skipped events leaves the nodes as the controller sees them. */
  lemma {:induction false} QuietCourse(nodes: map<string, Node>, events: seq<Event>)
    requires Course(nodes, events) && Quiet(events)
    ensures Alike(nodes, Outcome(nodes, events))
    decreases |events|
  {
    if events != [] {
      var e := events[0];
      assert !Requeues(e) && Happens(nodes, e);
      var next := After(nodes, e);
      assert Seen(e.before) == Seen(e.after);
      assert Alike(nodes, next);
      QuietCourse(next, events[1..]);
      AlikeChain(nodes, next, Outcome(next, events[1..]));
    }
  }

  lemma AlikeChain(a: map<string, Node>, b: map<string, Node>, c: map<string, Node>)
    requires Alike(a, b) && Alike(b, c)
    ensures Alike(a, c)
  {
    hide Seen;
    forall name | name in a ensures Seen(a[name]) == Seen(c[name]) {
      assert Seen(a[name]) == Seen(b[name]) && Seen(b[name]) == Seen(c[name]);
    }
  }

  /** The answers to everything a reconciliation asks about nodes. */
  ghost predicate SameAnswers(env: Environment, later: Environment, key: NamespacedName, ours: Pool) {
    var ls := ours.backend.nodeSelector;
    && (Converts(env, ls) && env.listable <==> Converts(later, ls) && later.listable)
    && (PoolReadable(env, ls) <==> PoolReadable(later, ls))
    && PoolZones(env, ls) == PoolZones(later, ls)
    && forall a, b :: Selected(a, env.nodes, ls) && Selected(b, later.nodes, ls) ==> SameFor(env, a, b, key, ours)
  }

  ghost predicate SameFor(env: Environment, a: seq<Node>, b: seq<Node>, key: NamespacedName, ours: Pool) {
    && AllAlike(a, b)
    && (NoneFails(a, env.get) <==> NoneFails(b, env.get))
    && BackedAlike(Backed(a, env.get), Backed(b, env.get))
    && FromServers(key, ours, Backed(a, env.get)) == FromServers(key, ours, Backed(b, env.get))
  }

  lemma AlikeMatched(env: Environment, later: Environment, ls: LabelSelector)
    requires Alike(env.nodes, later.nodes) && later == env.(nodes := later.nodes)
    ensures Matched(env.nodes, ls) == Matched(later.nodes, ls)
    ensures forall name :: name in env.nodes ==>
      AnswerFor(env.nodes[name], env.get) == AnswerFor(later.nodes[name], env.get)
    ensures Converts(env, ls) <==> Converts(later, ls)
  {
    forall name | name in env.nodes
      ensures AnswerFor(env.nodes[name], env.get) == AnswerFor(later.nodes[name], env.get) &&
        env.nodes[name].labels == later.nodes[name].labels {
      SeenAnswer(env.nodes[name], later.nodes[name], env.get);
      assert Seen(env.nodes[name]).labels == env.nodes[name].labels &&
        Seen(later.nodes[name]).labels == later.nodes[name].labels;
    }
    hide Matches, AnswerFor;
    assert forall r :: RequirementOk(env, r) <==> RequirementOk(later, r);
  }

  /** If the controller sees the same nodes, it gets the same answers. */
  lemma AlikeAnswers(env: Environment, later: Environment, key: NamespacedName, ours: Pool)
    requires Alike(env.nodes, later.nodes) && later == env.(nodes := later.nodes)
    ensures SameAnswers(env, later, key, ours)
  {
    var ls := ours.backend.nodeSelector;
    AlikeMatched(env, later, ls);
    hide Matched, Converts, AnswerFor, Backed, FromServers, NoneFails, AllAlike, BackedAlike;
    forall a, b | Selected(a, env.nodes, ls) && Selected(b, later.nodes, ls) ensures SameFor(env, a, b, key, ours) {
      hide Selected, Alike;
      SelectedAlike(env.nodes, later.nodes, ls, a, b);
      ServersAlike(a, b, env.get);
      WantedAlike(key, ours, Backed(a, env.get), Backed(b, env.get));
    }
    assert forall name :: name in Matched(env.nodes, ls) ==> name in env.nodes by { MatchedIn(env.nodes, ls); }
    hide Selected, SameFor;
    assert PoolZones(env, ls) == PoolZones(later, ls);
  }

  lemma MatchedIn(nodes: map<string, Node>, ls: LabelSelector)
    ensures forall name :: name in Matched(nodes, ls) ==> name in nodes
  {
  }

  /** Skipping is sound: after any course of skipped events, for every pool of every load balancer the matched
      nodes, their servers and the wanted members are what they were, and so is the guessed zone. */
  lemma SkippingIsSound(env: Environment, events: seq<Event>, key: NamespacedName, pools: seq<Pool>)
    requires Course(env.nodes, events) && Quiet(events)
    ensures var later := env.(nodes := Outcome(env.nodes, events));
            && (forall i :: 0 <= i < |pools| ==> SameAnswers(env, later, key, pools[i]))
            && (Readable(env, PoolSet(pools)) <==> Readable(later, PoolSet(pools)))
            && ZonesOf(env, PoolSet(pools)) == ZonesOf(later, PoolSet(pools))
  {
    QuietCourse(env.nodes, events);
    var later := env.(nodes := Outcome(env.nodes, events));
    forall p: Pool ensures SameAnswers(env, later, key, p) {
      AlikeAnswers(env, later, key, p);
    }
    hide PoolReadable, PoolZones;
    forall p: Pool ensures (PoolReadable(env, p.backend.nodeSelector) <==> PoolReadable(later, p.backend.nodeSelector))
      && PoolZones(env, p.backend.nodeSelector) == PoolZones(later, p.backend.nodeSelector) {
      assert SameAnswers(env, later, key, p);
    }
    hide SameAnswers;
  }

  /** Skipping misses no label change: an update that changes labels is told apart by some selector. */
  lemma LabelChangesMatter(o: Node, n: Node)
    requires o.providerID == n.providerID
    ensures Requeues(Updated(o, n)) <==> exists ls :: Matches(ls, o.labels) != Matches(ls, n.labels)
  {
    LabelsExactly(o.labels, n.labels);
  }
}
