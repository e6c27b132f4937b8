/** The webhook as the keeper of store-wide invariants over any history of admitted writes. */
module Admission {
  import opened Api
  import opened Webhook

  /** The objects in the API server and every UID it ever assigned. */
  datatype Store = Store(objects: map<NamespacedName, LoadBalancer>, uids: set<string>)

  datatype Write = Create(lb: LoadBalancer) | Update(lb: LoadBalancer) | Remove(key: NamespacedName)

  /** `list` is the answer of a list call against this very store, in any order. */
  ghost predicate Lists(list: seq<LoadBalancer>, s: Store) {
    && (forall i :: 0 <= i < |list| ==> list[i].key in s.objects && s.objects[list[i].key] == list[i])
    && (forall k :: k in s.objects ==> exists i :: 0 <= i < |list| && list[i] == s.objects[k])
  }

  /** A write the API server applies: the webhook admitted it against the current list. */
  ghost predicate Applied(p: Parsers, s: Store, w: Write, list: seq<LoadBalancer>, s': Store) {
    match w
    case Create(lb) =>
      && lb.key !in s.objects && lb.uid !in s.uids
      && Admitted(p, Some(list), None, lb)
      && s' == Store(s.objects[lb.key := lb], s.uids + {lb.uid})
    case Update(lb) =>
      && lb.key in s.objects && lb.uid == s.objects[lb.key].uid
      && Admitted(p, Some(list), Some(s.objects[lb.key]), lb)
      && s' == s.(objects := s.objects[lb.key := lb])
    case Remove(key) =>
      s' == s.(objects := s.objects - {key})
  }

  /** A history of writes from an empty store, each validated against the store it is applied to. */
  ghost predicate History(p: Parsers, stores: seq<Store>, writes: seq<Write>, lists: seq<seq<LoadBalancer>>) {
    && |stores| == |writes| + 1 && |lists| == |writes|
    && stores[0].objects == map[]
    && (forall i :: 0 <= i < |writes| ==>
          Lists(lists[i], stores[i]) && Applied(p, stores[i], writes[i], lists[i], stores[i + 1]))
  }

  ghost predicate Claims(s: Store, k: NamespacedName, c: string) {
    k in s.objects && c in s.objects[k].spec.floatingIPs
  }

  /** No CIDR string is claimed by two objects. */
  ghost predicate Exclusive(s: Store) {
    forall j, k, c :: Claims(s, j, c) && Claims(s, k, c) ==> j == k
  }

  /** A stored object passes every check that does not depend on other objects. */
  ghost predicate SelfValid(p: Parsers, lb: LoadBalancer) {
    && VipsValid(p, lb.spec.virtualIPs) && PoolsValid(p, lb.spec.pools)
    && (forall c :: c in lb.spec.floatingIPs ==> ParseCIDR(p, c))
  }

  ghost predicate StoreOk(p: Parsers, s: Store) {
    && (forall k :: k in s.objects ==>
          s.objects[k].key == k && s.objects[k].uid in s.uids && SelfValid(p, s.objects[k]))
    && Exclusive(s)
  }

  lemma {:induction false} OwnerClaims(list: seq<LoadBalancer>, c: string)
    ensures Owner(list, c).Some? ==>
      exists i :: 0 <= i < |list| && c in list[i].spec.floatingIPs && list[i].key == Owner(list, c).value
    ensures Owner(list, c).None? ==> c == "" || forall i :: 0 <= i < |list| ==> c !in list[i].spec.floatingIPs
  {
    if list != [] && c != "" && c !in list[|list| - 1].spec.floatingIPs {
      OwnerClaims(list[..|list| - 1], c);
    }
  }

  /** In an exclusive store, the owner map names exactly the claimant, whatever the list order. */
  lemma OwnerInStore(p: Parsers, s: Store, list: seq<LoadBalancer>, c: string, k: NamespacedName)
    requires StoreOk(p, s) && Lists(list, s)
    ensures Owner(list, c) == Some(k) <==> c != "" && Claims(s, k, c)
  {
    OwnerClaims(list, c);
    if Owner(list, c).Some? {
      var i :| 0 <= i < |list| && c in list[i].spec.floatingIPs && list[i].key == Owner(list, c).value;
      assert Claims(s, list[i].key, c);
    }
    if Claims(s, k, c) {
      var i :| 0 <= i < |list| && list[i] == s.objects[k];
    }
  }

  /** The check of one CIDR: it must parse, and nobody else may claim it.  The owner map skips empty
      CIDRs, but they never parse. */
  lemma FipFreeExactly(p: Parsers, s: Store, list: seq<LoadBalancer>, c: string, key: NamespacedName)
    requires StoreOk(p, s) && Lists(list, s)
    ensures ParseCIDR(p, c) && (Owner(list, c).Some? ==> Owner(list, c).value == key)
            <==> ParseCIDR(p, c) && forall k :: Claims(s, k, c) ==> k == key
  {
    forall k ensures Owner(list, c) == Some(k) <==> c != "" && Claims(s, k, c) {
      OwnerInStore(p, s, list, c, k);
    }
  }

  ghost predicate NobodyElseClaims(s: Store, lb: LoadBalancer) {
    forall c, k :: c in lb.spec.floatingIPs && Claims(s, k, c) ==> k == lb.key
  }

  /** Validation against the current list is validation against all other objects. */
  lemma FipsFreeExactly(p: Parsers, s: Store, list: seq<LoadBalancer>, lb: LoadBalancer)
    requires StoreOk(p, s) && Lists(list, s)
    ensures FipsFree(p, list, lb) <==>
      (forall c :: c in lb.spec.floatingIPs ==> ParseCIDR(p, c)) && NobodyElseClaims(s, lb)
  {
    hide StoreOk, Lists, Claims, ParseCIDR;
    var fips := lb.spec.floatingIPs;
    forall i | 0 <= i < |fips|
      ensures ParseCIDR(p, fips[i]) && (Owner(list, fips[i]).Some? ==> Owner(list, fips[i]).value == lb.key)
              <==> ParseCIDR(p, fips[i]) && forall k :: Claims(s, k, fips[i]) ==> k == lb.key
    {
      FipFreeExactly(p, s, list, fips[i], lb.key);
    }
  }

  lemma ExclusiveKept(s: Store, lb: LoadBalancer, s': Store)
    requires Exclusive(s) && NobodyElseClaims(s, lb) && s'.objects == s.objects[lb.key := lb]
    ensures Exclusive(s')
  {
    assert forall k, c :: Claims(s', k, c) ==>
      (k != lb.key && Claims(s, k, c)) || (k == lb.key && c in lb.spec.floatingIPs);
  }

  lemma AppliedOk(p: Parsers, s: Store, w: Write, list: seq<LoadBalancer>, s': Store)
    requires StoreOk(p, s) && Lists(list, s) && Applied(p, s, w, list, s')
    ensures StoreOk(p, s')
  {
    if w.Remove? {
      assert forall k, c :: Claims(s', k, c) ==> Claims(s, k, c);
    } else {
      hide Exclusive, NobodyElseClaims, Lists, VipsValid, PoolsValid, ParseCIDR, ChangeAllowed, FipsFree;
      FipsFreeExactly(p, s, list, w.lb);
      ExclusiveKept(s, w.lb, s');
    }
  }

  lemma {:induction false} HistoryOk(p: Parsers, stores: seq<Store>, writes: seq<Write>,
                                     lists: seq<seq<LoadBalancer>>, n: nat)
    requires History(p, stores, writes, lists) && n < |stores|
    ensures StoreOk(p, stores[n])
  {
    if n > 0 {
      HistoryOk(p, stores, writes, lists, n - 1);
      AppliedOk(p, stores[n - 1], writes[n - 1], lists[n - 1], stores[n]);
    }
  }

  /** Over every history of admitted writes, each CIDR is claimed by at most one object. */
  lemma ExclusiveFloatingIPs(p: Parsers, stores: seq<Store>, writes: seq<Write>, lists: seq<seq<LoadBalancer>>, n: nat,
                             j: NamespacedName, k: NamespacedName, c: string)
    requires History(p, stores, writes, lists) && n < |stores|
    requires Claims(stores[n], j, c) && Claims(stores[n], k, c)
    ensures j == k
  {
    HistoryOk(p, stores, writes, lists, n);
  }

  // ---------------------------------------------------------------- write-once fields

  /** What one write keeps of an object that existed before it. */
  lemma KeptByWrite(p: Parsers, s: Store, w: Write, list: seq<LoadBalancer>, s': Store, k: NamespacedName)
    requires StoreOk(p, s) && Lists(list, s) && Applied(p, s, w, list, s')
    requires k in s'.objects && s'.objects[k].uid in s.uids
    ensures k in s.objects && s.objects[k].uid == s'.objects[k].uid
    ensures ChangeAllowed(s.objects[k].spec, s'.objects[k].spec)
    ensures s.uids <= s'.uids
  {
  }

  /** Over any stretch of a history, as long as it is the same object, a non-empty UUID or zone never
      changes and the virtual IP addresses stay the same up to order. */
  lemma {:induction false} WriteOnce(p: Parsers, stores: seq<Store>, writes: seq<Write>, lists: seq<seq<LoadBalancer>>,
                                     i: nat, n: nat, k: NamespacedName)
    requires History(p, stores, writes, lists) && i <= n < |stores|
    requires k in stores[n].objects && stores[n].objects[k].uid in stores[i].uids
    ensures stores[i].uids <= stores[n].uids
    ensures k in stores[i].objects && stores[i].objects[k].uid == stores[n].objects[k].uid
    ensures ChangeAllowed(stores[i].objects[k].spec, stores[n].objects[k].spec)
    decreases n - i
  {
    hide StoreOk, Lists, Applied;
    if i < n {
      UidsGrow(p, stores, writes, lists, i, n - 1);
      HistoryOk(p, stores, writes, lists, n - 1);
      KeptByWrite(p, stores[n - 1], writes[n - 1], lists[n - 1], stores[n], k);
      WriteOnce(p, stores, writes, lists, i, n - 1, k);
    }
  }

  lemma {:induction false} UidsGrow(p: Parsers, stores: seq<Store>, writes: seq<Write>, lists: seq<seq<LoadBalancer>>,
                                    i: nat, n: nat)
    requires History(p, stores, writes, lists) && i <= n < |stores|
    ensures stores[i].uids <= stores[n].uids
    decreases n - i
  {
    if i < n {
      UidsGrow(p, stores, writes, lists, i, n - 1);
      assert Applied(p, stores[n - 1], writes[n - 1], lists[n - 1], stores[n]);
    }
  }

  // ---------------------------------------------------------------- the controller's own writes

  /** A write that leaves the checked part of a stored object as it is gets admitted exactly when the
      write-once fields allow it. */
  lemma RewriteAdmitted(p: Parsers, s: Store, list: seq<LoadBalancer>, k: NamespacedName, lb: LoadBalancer)
    requires StoreOk(p, s) && Lists(list, s) && k in s.objects && lb.key == k
    requires var stored := s.objects[k].spec;
             && lb.spec.virtualIPs == stored.virtualIPs && lb.spec.floatingIPs == stored.floatingIPs
             && lb.spec.pools == stored.pools
    ensures Admitted(p, Some(list), Some(s.objects[k]), lb) <==> ChangeAllowed(s.objects[k].spec, lb.spec)
  {
    FipsFreeExactly(p, s, list, lb);
    assert forall c :: c in lb.spec.floatingIPs ==> Claims(s, k, c);
  }

  /** Adding or removing the finalizer is always admitted; so is recording a zone where there is none. */
  lemma ControllerUpdatesAdmitted(p: Parsers, s: Store, list: seq<LoadBalancer>, k: NamespacedName, finalizer: bool,
                                  zone: string)
    requires StoreOk(p, s) && Lists(list, s) && k in s.objects
    ensures Admitted(p, Some(list), Some(s.objects[k]), s.objects[k].(finalizer := finalizer))
    ensures s.objects[k].spec.zone == "" ==>
      Admitted(p, Some(list), Some(s.objects[k]), s.objects[k].(spec := s.objects[k].spec.(zone := zone)))
  {
    var lb := s.objects[k];
    RewriteAdmitted(p, s, list, k, lb.(finalizer := finalizer));
    RewriteAdmitted(p, s, list, k, lb.(spec := lb.spec.(zone := zone)));
  }

  /** Recording the UUID and the zone of an ensured load balancer in a manifest without a UUID is admitted
      exactly when the manifest has no zone yet or the zone of the load balancer agrees with it. */
  lemma RecordAdmitted(p: Parsers, s: Store, list: seq<LoadBalancer>, k: NamespacedName, uuid: string, zone: string)
    requires StoreOk(p, s) && Lists(list, s) && k in s.objects && s.objects[k].spec.uuid == ""
    ensures Admitted(p, Some(list), Some(s.objects[k]),
                     s.objects[k].(spec := s.objects[k].spec.(uuid := uuid, zone := zone)))
            <==> s.objects[k].spec.zone == "" || s.objects[k].spec.zone == zone
  {
    var lb := s.objects[k];
    RewriteAdmitted(p, s, list, k, lb.(spec := lb.spec.(uuid := uuid, zone := zone)));
  }

  /** Since the store `before`, no other object has claimed a CIDR of `lb`. */
  ghost predicate NoneSince(before: Store, now: Store, lb: LoadBalancer) {
    forall k, c :: k != lb.key && c in lb.spec.floatingIPs && Claims(now, k, c) ==> Claims(before, k, c)
  }

  lemma ClaimedTwice(s: Store, lb: LoadBalancer, s': Store)
    requires Exclusive(s) && s'.objects == s.objects[lb.key := lb]
    ensures Exclusive(s') <==> NobodyElseClaims(s, lb)
  {
    if NobodyElseClaims(s, lb) {
      ExclusiveKept(s, lb, s');
    } else {
      var k, c :| c in lb.spec.floatingIPs && Claims(s, k, c) && k != lb.key;
      assert Claims(s', k, c) && Claims(s', lb.key, c);
    }
  }

  /** How much an outdated list matters, exactly: a write validated against the list of an earlier store of the history
      keeps exclusivity if and only if no other object has claimed one of its CIDRs since then. */
  lemma StaleListExactly(p: Parsers, stores: seq<Store>, writes: seq<Write>, lists: seq<seq<LoadBalancer>>, i: nat,
                         n: nat,
                         list: seq<LoadBalancer>, before: Option<LoadBalancer>, lb: LoadBalancer, s': Store)
    requires History(p, stores, writes, lists) && i <= n < |stores|
    requires Lists(list, stores[i]) && Admitted(p, Some(list), before, lb) &&
      s'.objects == stores[n].objects[lb.key := lb]
    ensures Exclusive(s') <==> NoneSince(stores[i], stores[n], lb)
  {
    HistoryOk(p, stores, writes, lists, i);
    HistoryOk(p, stores, writes, lists, n);
    hide History, Lists, Exclusive;
    FipsFreeExactly(p, stores[i], list, lb);
    ClaimedTwice(stores[n], lb, s');
    hide StoreOk, FipsFree;
    assert NobodyElseClaims(stores[n], lb) <==> NoneSince(stores[i], stores[n], lb);
  }

  /** The list must be current: validated against the list of an older store, a write can break exclusivity. */
  lemma StaleListBreaks(p: Parsers, a: LoadBalancer, b: LoadBalancer, c: string)
    requires a.key != b.key && a.uid != b.uid && SelfValid(p, a) && SelfValid(p, b)
    requires c in a.spec.floatingIPs && c in b.spec.floatingIPs
    ensures var s0 := Store(map[], {});
            var s1 := Store(map[a.key := a], {a.uid});
            var s2 := Store(map[a.key := a, b.key := b], {a.uid, b.uid});
            && Lists([], s0) && Applied(p, s0, Create(a), [], s1) && Applied(p, s1, Create(b), [], s2)
            && !Exclusive(s2)
  {
    var s1 := Store(map[a.key := a], {a.uid});
    var s2 := Store(map[a.key := a, b.key := b], {a.uid, b.uid});
    assert s2.objects == s1.objects[b.key := b] && s2.uids == s1.uids + {b.uid};
    assert Owner([], c).None?;
    assert Claims(s2, a.key, c) && Claims(s2, b.key, c);
  }
}
