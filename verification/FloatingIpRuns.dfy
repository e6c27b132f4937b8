/** Any call-level interleaving of the attach loops of several load balancers. */
module FloatingIpRuns {
  import opened Api
  import opened Webhook
  import opened Admission
  import opened FloatingIps

  /** A loop in progress: the floating IPs as listed at its start, and the CIDRs still to be processed. */
  datatype Loop = Loop(listed: map<string, string>, todo: seq<string>)

  /** The cloud's attachments and the running loops by load balancer UUID. */
  datatype State = State(attached: map<string, string>, loops: map<string, Loop>)

  datatype Action =
    | Start(uuid: string)
    | Skip(uuid: string)
    | Attach(uuid: string, network: string, answered: bool)
    | Stop(uuid: string)

  type Wanted = map<string, seq<string>>

  ghost predicate Next(w: Wanted, s: State, a: Action, s': State) {
    match a
    case Start(u) =>
      && u in w && u !in s.loops
      && s' == s.(loops := s.loops[u := Loop(s.attached, w[u])])
    case Skip(u) =>
      && u in s.loops && s.loops[u].todo != []
      && var l := s.loops[u];
         && l.todo[0] in l.listed && l.listed[l.todo[0]] == u
         && s' == s.(loops := s.loops[u := l.(todo := l.todo[1..])])
    case Attach(u, n, answered) =>
      && u in s.loops && s.loops[u].todo != []
      && var l := s.loops[u];
         && !(l.todo[0] in l.listed && l.listed[l.todo[0]] == u)
         && n in s.attached && Trim(n) == Trim(l.todo[0])
         && s' == State(s.attached[n := u], if answered then s.loops[u := l.(todo := l.todo[1..])] else s.loops - {u})
    case Stop(u) =>
      s' == s.(loops := s.loops - {u})
  }

  ghost predicate Run(w: Wanted, states: seq<State>, actions: seq<Action>) {
    && |states| == |actions| + 1 && states[0].loops == map[]
    && (forall i :: 0 <= i < |actions| ==> Next(w, states[i], actions[i], states[i + 1]))
  }

  /** No CIDR is wanted by two load balancers, and every wanted or existing network is a host prefix
      spelled the way the cloud spells it. */
  ghost predicate Orderly(w: Wanted, networks: set<string>) {
    && (forall u, v, c :: u in w && v in w && c in w[u] && c in w[v] ==> u == v)
    && (forall u, c :: u in w && c in w[u] ==> Host(c))
    && (forall n :: n in networks ==> Host(n))
  }

  /** The wanted networks that are not attached to the load balancer that wants them. */
  ghost function Missing(w: Wanted, s: State): set<string> {
    set u, c | u in w && c in w[u] && !(c in s.attached && s.attached[c] == u) :: c
  }

  /** A running loop only has its own CIDRs left, and what it has left is attached to it now exactly
      if it was when listed. */
  ghost predicate LoopOk(w: Wanted, s: State, u: string) {
    && u in w && u in s.loops
    && var l := s.loops[u];
       && (forall i :: 0 <= i < |l.todo| ==> l.todo[i] in w[u])
       && l.listed.Keys == s.attached.Keys
       && (NoRepeats(w[u]) ==>
             && NoRepeats(l.todo)
             && forall i :: 0 <= i < |l.todo| && l.todo[i] in s.attached ==>
               (l.listed[l.todo[i]] == u <==> s.attached[l.todo[i]] == u))
  }

  ghost predicate NoRepeats(s: seq<string>) {
    forall i, j :: 0 <= i < j < |s| ==> s[i] != s[j]
  }

  ghost predicate Inv(w: Wanted, s: State) {
    forall u :: u in s.loops ==> LoopOk(w, s, u)
  }

  /** The network changed by an attach call is the very CIDR the caller wants. */
  lemma AttachesOwn(w: Wanted, s: State, u: string, n: string, answered: bool, s': State)
    requires Orderly(w, s.attached.Keys) && Inv(w, s) && Next(w, s, Attach(u, n, answered), s')
    ensures n == s.loops[u].todo[0] && u in w && n in w[u]
  {
    assert LoopOk(w, s, u);
    TrimInjective(n, s.loops[u].todo[0]);
  }

  lemma NotShared(w: Wanted, networks: set<string>, u: string, v: string, c: string)
    requires Orderly(w, networks) && u in w && v in w && c in w[u] && u != v
    ensures c !in w[v]
  {
  }

  /** A loop is not disturbed by a call of another one. */
  lemma OtherLoop(w: Wanted, s: State, s': State, u: string, v: string, n: string)
    requires LoopOk(w, s, u) && v in w && n in w[v] && n !in w[u] && u != v
    requires s'.attached == s.attached[n := v] && n in s.attached && u in s'.loops && s'.loops[u] == s.loops[u]
    ensures LoopOk(w, s', u)
  {
    assert s'.attached.Keys == s.attached.Keys;
  }

  /** After its own answered call, a loop goes on with the rest of its CIDRs. */
  lemma OwnLoop(w: Wanted, s: State, s': State, u: string, n: string)
    requires LoopOk(w, s, u) && s.loops[u].todo != [] && n == s.loops[u].todo[0]
    requires s'.attached == s.attached[n := u] && n in s.attached
    requires u in s'.loops && s'.loops[u] == s.loops[u].(todo := s.loops[u].todo[1..])
    ensures LoopOk(w, s', u)
  {
    assert s'.attached.Keys == s.attached.Keys;
  }

  lemma AttachOk(w: Wanted, s: State, u: string, n: string, answered: bool, s': State)
    requires Orderly(w, s.attached.Keys) && Inv(w, s) && Next(w, s, Attach(u, n, answered), s')
    ensures Inv(w, s') && s'.attached.Keys == s.attached.Keys
  {
    AttachesOwn(w, s, u, n, answered, s');
    hide Trim, Host, Orderly, LoopOk;
    assert s'.attached.Keys == s.attached.Keys;
    forall v | v in s'.loops ensures LoopOk(w, s', v) {
      assert LoopOk(w, s, v);
      if v == u {
        OwnLoop(w, s, s', u, n);
      } else {
        assert v in w by { LoopWanted(w, s, v); }
        NotShared(w, s.attached.Keys, u, v, n);
        OtherLoop(w, s, s', v, u, n);
      }
    }
  }

  lemma LoopWanted(w: Wanted, s: State, u: string)
    requires LoopOk(w, s, u)
    ensures u in w
  {
  }

  lemma StartLoop(w: Wanted, s: State, s': State, u: string)
    requires u in w && s'.attached == s.attached && u in s'.loops && s'.loops[u] == Loop(s.attached, w[u])
    ensures LoopOk(w, s', u)
  {
  }

  lemma SkipLoop(w: Wanted, s: State, s': State, u: string)
    requires LoopOk(w, s, u) && s.loops[u].todo != [] && s'.attached == s.attached
    requires u in s'.loops && s'.loops[u] == s.loops[u].(todo := s.loops[u].todo[1..])
    ensures LoopOk(w, s', u)
  {
  }

  lemma SameLoop(w: Wanted, s: State, s': State, u: string)
    requires LoopOk(w, s, u) && s'.attached == s.attached && u in s'.loops && s'.loops[u] == s.loops[u]
    ensures LoopOk(w, s', u)
  {
  }

  lemma NextOk(w: Wanted, s: State, a: Action, s': State)
    requires Orderly(w, s.attached.Keys) && Inv(w, s) && Next(w, s, a, s')
    ensures Inv(w, s') && s'.attached.Keys == s.attached.Keys
  {
    if a.Attach? {
      AttachOk(w, s, a.uuid, a.network, a.answered, s');
    } else {
      hide Orderly, Trim, Host, LoopOk;
      forall u | u in s'.loops ensures LoopOk(w, s', u) {
        if a == Start(u) {
          StartLoop(w, s, s', u);
        } else if a == Skip(u) {
          SkipLoop(w, s, s', u);
        } else {
          SameLoop(w, s, s', u);
        }
      }
    }
  }

  lemma {:induction false} RunOk(w: Wanted, states: seq<State>, actions: seq<Action>, n: nat)
    requires Run(w, states, actions) && n < |states| && Orderly(w, states[0].attached.Keys)
    ensures Inv(w, states[n]) && states[n].attached.Keys == states[0].attached.Keys
  {
    hide Next, Orderly;
    if n > 0 {
      RunOk(w, states, actions, n - 1);
      NextOk(w, states[n - 1], actions[n - 1], states[n]);
    }
  }

  /** What one step may do: nothing, or attach one network to the load balancer that wants it. */
  lemma StepEffect(w: Wanted, s: State, a: Action, s': State, n: string)
    requires Orderly(w, s.attached.Keys) && Inv(w, s) && Next(w, s, a, s') && n in s.attached
    ensures n in s'.attached
    ensures s'.attached[n] != s.attached[n] ==> a.Attach? && a.uuid in w && n in w[a.uuid] && s'.attached[n] == a.uuid
  {
    hide Trim;
    if a.Attach? {
      AttachesOwn(w, s, a.uuid, a.network, a.answered, s');
    }
  }

  /** No fights: over any interleaving, an address once attached to the load balancer that wants it stays
      there, and an address nobody wants is never touched. */
  lemma {:induction false} NoFights(w: Wanted, states: seq<State>, actions: seq<Action>, i: nat, j: nat, n: string)
    requires Run(w, states, actions) && i <= j < |states| && Orderly(w, states[0].attached.Keys)
    requires n in states[i].attached
    ensures n in states[j].attached
    ensures (forall u :: u in w ==> n !in w[u]) ==> states[j].attached[n] == states[i].attached[n]
    ensures forall u :: u in w && n in w[u] && states[i].attached[n] == u ==> states[j].attached[n] == u
    decreases j - i
  {
    hide Next;
    if i < j {
      NoFights(w, states, actions, i, j - 1, n);
      RunOk(w, states, actions, j - 1);
      StepEffect(w, states[j - 1], actions[j - 1], states[j], n);
    }
  }

  /** No step lets the set of wanted but unattached networks grow.  A call removes exactly its network from
      it, and makes progress exactly unless that network was attached to its load balancer already; which
      cannot be if no CIDR is listed twice in the specification. */
  lemma Progress(w: Wanted, s: State, a: Action, s': State)
    requires Orderly(w, s.attached.Keys) && Inv(w, s) && Next(w, s, a, s')
    ensures Missing(w, s') <= Missing(w, s)
    ensures a.Attach? ==> a.uuid in w && Missing(w, s') == Missing(w, s) - {a.network}
    ensures a.Attach? ==> (Missing(w, s') < Missing(w, s) <==> s.attached[a.network] != a.uuid)
    ensures a.Attach? && NoRepeats(w[a.uuid]) ==> Missing(w, s') < Missing(w, s)
  {
    if a.Attach? {
      AttachesOwn(w, s, a.uuid, a.network, a.answered, s');
      assert LoopOk(w, s, a.uuid);
      MissingAfter(w, s, a.uuid, a.network, s');
      assert NoRepeats(w[a.uuid]) ==> s.attached[a.network] != a.uuid;
    } else {
      assert s'.attached == s.attached;
    }
  }

  lemma MissingAfter(w: Wanted, s: State, u: string, n: string, s': State)
    requires forall v, x, c :: v in w && x in w && c in w[v] && c in w[x] ==> v == x
    requires u in w && n in w[u] && n in s.attached && s'.attached == s.attached[n := u]
    ensures Missing(w, s') == Missing(w, s) - {n}
    ensures s.attached[n] != u <==> n in Missing(w, s)
  {
    forall c ensures c in Missing(w, s') <==> c in Missing(w, s) && c != n {
      if c in Missing(w, s) && c != n {
        var v :| v in w && c in w[v] && !(c in s.attached && s.attached[c] == v);
        assert !(c in s'.attached && s'.attached[c] == v);
      }
    }
  }

  /** A run in which the `i`-th step is a call of `u` that makes no progress. */
  ghost predicate Futile(w: Wanted, u: string, states: seq<State>, actions: seq<Action>, i: int) {
    && Run(w, states, actions) && Orderly(w, states[0].attached.Keys) && 0 <= i < |actions|
    && actions[i].Attach? && actions[i].uuid == u && Missing(w, states[i + 1]) == Missing(w, states[i])
  }

  /** The networks of one specification, the first `n` of them attached. */
  ghost function Filled(todo: seq<string>, u: string, n: nat): map<string, string> {
    map c | c in todo :: if n <= |todo| && c in todo[..n] then u else ""
  }

  lemma FilledNext(todo: seq<string>, u: string, n: nat)
    requires n < |todo|
    ensures Filled(todo, u, n + 1) == Filled(todo, u, n)[todo[n] := u]
  {
    assert todo[..n + 1] == todo[..n] + [todo[n]];
  }

  /** The loop of `u` after `n` answered calls, from a cloud where nothing is attached. */
  ghost function Midway(todo: seq<string>, u: string, n: nat): State
    requires n <= |todo|
  {
    State(Filled(todo, u, n), map[u := Loop(Filled(todo, u, 0), todo[n..])])
  }

  lemma MidwayStep(w: Wanted, u: string, n: nat)
    requires u in w && u != "" && n < |w[u]|
    ensures Next(w, Midway(w[u], u, n), Attach(u, w[u][n], true), Midway(w[u], u, n + 1))
  {
    hide Trim;
    var todo := w[u];
    var l := Loop(Filled(todo, u, 0), todo[n..]);
    FilledNext(todo, u, n);
    assert todo[n..][1..] == todo[n + 1..] && todo[n..][0] == todo[n];
    assert map[u := l][u := l.(todo := todo[n + 1..])] == map[u := l.(todo := todo[n + 1..])];
  }

  /** The loop of `u` alone, from the start through its first `n` calls. */
  ghost function Solo(todo: seq<string>, u: string, n: nat): (seq<State>, seq<Action>)
    requires n <= |todo|
  {
    ([State(Filled(todo, u, 0), map[])] + seq(n + 1, i requires 0 <= i < n + 1 => Midway(todo, u, i)),
     [Start(u)] + seq(n, i requires 0 <= i < n => Attach(u, todo[i], true)))
  }

  lemma SoloAt(todo: seq<string>, u: string, n: nat, i: nat)
    requires i <= n <= |todo|
    ensures var (states, actions) := Solo(todo, u, n);
            && |states| == n + 2 && |actions| == n + 1 && states[0] == State(Filled(todo, u, 0), map[])
            && actions[0] == Start(u) && states[i + 1] == Midway(todo, u, i)
            && (i < n ==> actions[i + 1] == Attach(u, todo[i], true))
  {
    hide Midway, Filled;
  }

  lemma SoloStart(w: Wanted, u: string)
    requires u in w
    ensures Next(w, State(Filled(w[u], u, 0), map[]), Start(u), Midway(w[u], u, 0))
  {
    hide Filled;
    assert w[u][0..] == w[u];
  }

  lemma SoloRuns(w: Wanted, u: string, n: nat)
    requires u in w && u != "" && n <= |w[u]|
    ensures Run(w, Solo(w[u], u, n).0, Solo(w[u], u, n).1)
  {
    var todo := w[u];
    var (states, actions) := Solo(todo, u, n);
    hide Solo, Filled, Midway, Next;
    SoloAt(todo, u, n, 0);
    SoloStart(w, u);
    forall i | 0 <= i < |actions| ensures Next(w, states[i], actions[i], states[i + 1]) {
      if i > 0 {
        SoloAt(todo, u, n, i - 1);
        SoloAt(todo, u, n, i);
        MidwayStep(w, u, i - 1);
      }
    }
  }

  /** If a specification lists a CIDR twice, its loop makes a call without progress. */
  lemma RepeatedIsFutile(w: Wanted, u: string)
    requires u in w && u != "" && !NoRepeats(w[u])
    requires Orderly(w, {})
    ensures exists states, actions, i :: Futile(w, u, states, actions, i)
  {
    var todo := w[u];
    var p, q :| 0 <= p < q < |todo| && todo[p] == todo[q];
    assert todo[..q][p] == todo[q];
    var (states, actions) := Solo(todo, u, q + 1);
    hide Run, Host, Solo, Filled, Midway, Missing;
    SoloRuns(w, u, q + 1);
    SoloAt(todo, u, q + 1, q);
    SoloAt(todo, u, q + 1, q + 1);
    SecondCall(w, u, q);
    OrderlyAnyway(w, u, Filled(todo, u, 0).Keys);
    hide Orderly;
    assert Futile(w, u, states, actions, q + 1);
  }

  lemma OrderlyAnyway(w: Wanted, u: string, networks: set<string>)
    requires Orderly(w, {}) && u in w && networks == Filled(w[u], u, 0).Keys
    ensures Orderly(w, networks)
  {
    hide Host;
  }

  lemma SecondCall(w: Wanted, u: string, q: nat)
    requires u in w && q < |w[u]| && w[u][q] in w[u][..q]
    ensures Missing(w, Midway(w[u], u, q + 1)) == Missing(w, Midway(w[u], u, q))
  {
    FilledNext(w[u], u, q);
    assert Filled(w[u], u, q + 1) == Filled(w[u], u, q);
  }

  /** Exactly the specifications that list a CIDR twice can make calls without progress. */
  lemma ProgressExactly(w: Wanted, u: string)
    requires u in w && u != "" && Orderly(w, {})
    ensures (exists states, actions, i :: Futile(w, u, states, actions, i)) <==> !NoRepeats(w[u])
  {
    hide Orderly, NoRepeats;
    if states, actions, i :| Futile(w, u, states, actions, i) {
      RunOk(w, states, actions, i);
      Progress(w, states[i], actions[i], states[i + 1]);
    }
    if !NoRepeats(w[u]) {
      RepeatedIsFutile(w, u);
    }
  }

  // ---------------------------------------------------------------- composition with the webhook

  /** What the objects of a store want, by the UUID of their load balancer. */
  ghost predicate WantedBy(s: Store, w: Wanted) {
    && (forall u :: u in w ==>
          u != "" && exists k :: k in s.objects && s.objects[k].spec.uuid == u && s.objects[k].spec.floatingIPs == w[u])
    && (forall k :: k in s.objects && s.objects[k].spec.uuid != "" ==>
          s.objects[k].spec.uuid in w && w[s.objects[k].spec.uuid] == s.objects[k].spec.floatingIPs)
  }

  /** The webhook's exclusivity is what keeps the loops out of each other's way: for the objects of any
      store reached by admitted writes, no interleaving of their attach loops moves an address off the
      load balancer of the object that claims it. */
  lemma AdmittedObjectsDoNotFight(p: Parsers, stores: seq<Store>, writes: seq<Write>, lists: seq<seq<LoadBalancer>>,
                                  m: nat,
                                  w: Wanted, states: seq<State>, actions: seq<Action>, i: nat, j: nat, n: string,
                                  k: NamespacedName)
    requires History(p, stores, writes, lists) && m < |stores| && WantedBy(stores[m], w)
    requires Run(w, states, actions) && i <= j < |states|
    requires forall u, c :: u in w && c in w[u] ==> Host(c)
    requires forall c :: c in states[0].attached ==> Host(c)
    requires Claims(stores[m], k, n) && stores[m].objects[k].spec.uuid != ""
    requires n in states[i].attached && states[i].attached[n] == stores[m].objects[k].spec.uuid
    ensures n in states[j].attached && states[j].attached[n] == stores[m].objects[k].spec.uuid
  {
    HistoryOk(p, stores, writes, lists, m);
    hide Next, Host, Trim, History;
    forall u, v, c | u in w && v in w && c in w[u] && c in w[v] ensures u == v {
      WantedOnce(p, stores[m], w, u, v, c);
    }
    NoFights(w, states, actions, i, j, n);
  }

  lemma WantedOnce(p: Parsers, s: Store, w: Wanted, u: string, v: string, c: string)
    requires StoreOk(p, s) && WantedBy(s, w) && u in w && v in w && c in w[u] && c in w[v]
    ensures u == v
  {
    var a :| a in s.objects && s.objects[a].spec.uuid == u && s.objects[a].spec.floatingIPs == w[u];
    var b :| b in s.objects && s.objects[b].spec.uuid == v && s.objects[b].spec.floatingIPs == w[v];
    assert Claims(s, a, c) && Claims(s, b, c);
  }
}
