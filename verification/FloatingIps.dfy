/** `attachFloatingIPs`: the address notation and the loop of one load balancer. */
module FloatingIps {
  import opened Orders

  // ---------------------------------------------------------------- address notation

  function TrimSuffix(s: string, suffix: string): string {
    if |suffix| <= |s| && s[|s| - |suffix|..] == suffix then s[..|s| - |suffix|] else s
  }

  /** The update call wants the address without `/32` or `/128`. */
  function Trim(cidr: string): string {
    TrimSuffix(TrimSuffix(cidr, "/32"), "/128")
  }

  function Cidr(address: string, length: string): string {
    address + "/" + length
  }

  /** A CIDR has one slash. */
  lemma OneSlash(address: string, length: string, i: nat)
    requires '/' !in address && '/' !in length && i < |Cidr(address, length)|
    ensures Cidr(address, length)[i] == '/' <==> i == |address|
  {
    var s := Cidr(address, length);
    if i < |address| {
      assert s[i] == address[i] && address[i] in address;
    } else if i > |address| {
      assert s[i] == length[i - |address| - 1] && s[i] in length;
    }
  }

  lemma Halves(address: string, length: string)
    ensures Cidr(address, length)[..|address|] == address && Cidr(address, length)[|address|..] == "/" + length
  {
  }

  lemma TrimOther(s: string, suffix: string, address: string, length: string)
    requires s == Cidr(address, length) && '/' !in address && '/' !in length
    requires suffix == "/32" || suffix == "/128"
    ensures TrimSuffix(s, suffix) == if suffix == "/" + length then address else s
  {
    Halves(address, length);
    var cut := |s| - |suffix|;
    if suffix == "/" + length {
      assert |s| == |address| + |suffix| && cut == |address|;
    } else if 0 <= cut {
      OneSlash(address, length, cut);
      assert s[cut..][0] == s[cut];
      assert cut == |address| ==> s[cut..] == "/" + length;
    }
  }

  lemma TrimStem(s: string, suffix: string)
    requires '/' !in s && (suffix == "/32" || suffix == "/128")
    ensures TrimSuffix(s, suffix) == s
  {
    if |suffix| <= |s| {
      assert s[|s| - |suffix|..][0] == s[|s| - |suffix|];
    }
  }

  /** Of a CIDR, trimming takes off a host length and leaves any other alone. */
  lemma TrimCidr(address: string, length: string)
    requires '/' !in address && '/' !in length
    ensures Trim(Cidr(address, length)) == if length == "32" || length == "128" then address else Cidr(address, length)
  {
    var s := Cidr(address, length);
    TrimOther(s, "/32", address, length);
    TrimOther(s, "/128", address, length);
    TrimStem(address, "/128");
    assert "/32" == "/" + length <==> length == "32" by { assert ("/" + length)[1..] == length && "/32"[1..] == "32"; }
    assert "/128" == "/" + length <==>
      length == "128" by { assert ("/" + length)[1..] == length && "/128"[1..] == "128"; }
  }

  lemma CidrInjective(a: string, p: string, b: string, q: string)
    requires '/' !in a && '/' !in p && '/' !in b && '/' !in q && Cidr(a, p) == Cidr(b, q)
    ensures a == b && p == q
  {
    var s := Cidr(a, p);
    assert s[|a|] == '/' && s[|b|] == '/';
    assert |a| == |b|;
    assert s[..|a|] == a && s[..|b|] == b && s[|a| + 1..] == p && s[|b| + 1..] == q;
  }

  /** Two CIDRs are updated under the same address exactly when they are the same, or one is the /32 and
      the other the /128 of one address. */
  lemma TrimCollides(a: string, p: string, b: string, q: string)
    requires '/' !in a && '/' !in p && '/' !in b && '/' !in q
    ensures Trim(Cidr(a, p)) == Trim(Cidr(b, q)) <==>
      a == b && (p == q || (p == "32" && q == "128") || (p == "128" && q == "32"))
  {
    TrimCidr(a, p);
    TrimCidr(b, q);
    assert Cidr(a, p)[|a|] == '/' && Cidr(b, q)[|b|] == '/';
    if Cidr(a, p) == Cidr(b, q) {
      CidrInjective(a, p, b, q);
    }
  }

  /** A host prefix: `/32` on an address without a colon, `/128` on one with a colon. */
  ghost predicate Host(cidr: string) {
    exists a, p :: HostOf(cidr, a, p)
  }

  ghost predicate HostOf(cidr: string, a: string, p: string) {
    '/' !in a && cidr == Cidr(a, p) && ((p == "32" && ':' !in a) || (p == "128" && ':' in a))
  }

  lemma HostTrims(c: string, d: string, a: string, p: string, b: string, q: string)
    requires HostOf(c, a, p) && HostOf(d, b, q) && Trim(c) == Trim(d)
    ensures a == b && p == q
  {
    hide Trim;
    assert '/' !in "32" && '/' !in "128";
    TrimCollides(a, p, b, q);
  }

  /** On host prefixes, trimming is injective: an address names one floating IP. */
  lemma TrimInjective(c: string, d: string)
    requires Host(c) && Host(d) && Trim(c) == Trim(d)
    ensures c == d
  {
    hide Trim;
    var a, p :| HostOf(c, a, p);
    var b, q :| HostOf(d, b, q);
    HostTrims(c, d, a, p, b, q);
  }

  // ---------------------------------------------------------------- one loop

  /** The floating IP client: every network with the load balancer it is attached to ("" for none). */
  class FloatingIPService {
    var attached: map<string, string>
    ghost var log: seq<map<string, string>>
    /** How many calls were not answered. */
    ghost var failures: nat

    constructor(attached: map<string, string>)
      ensures this.attached == attached && log == [] && failures == 0
    {
      this.attached := attached;
      log, failures := [], 0;
    }

    method List() returns (ok: bool, listed: map<string, string>)
      modifies this`failures
      ensures ok ==> listed == attached
      ensures failures == old(failures) + if ok then 0 else 1
    {
      ok := *;
      failures := failures + if ok then 0 else 1;
      listed := attached;
    }

    /** Attaches a floating IP with this trimmed address, if there is one.  A failed call may still have
        taken effect. */
    method Update(address: string, uuid: string) returns (ok: bool)
      modifies this
      ensures log == old(log) + [attached]
      ensures attached == old(attached) || exists n ::
        n in old(attached) && Trim(n) == address && attached == old(attached)[n := uuid]
      ensures ok ==> exists n :: n in old(attached) && Trim(n) == address && attached == old(attached)[n := uuid]
      ensures failures >= old(failures) && (ok ==> failures == old(failures))
      ensures failures == old(failures) ==> ok || forall n :: n in old(attached) ==> Trim(n) != address
    {
      ok := *;
      if !ok {
        failures := failures + 1;
      } else if n :| n in attached && Trim(n) == address {
        attached := attached[n := uuid];
        ok := *;
        failures := failures + if ok then 0 else 1;
      } else {
        ok := false;
      }
      log := log + [attached];
    }
  }

  /** Only networks that share a trimmed address with a wanted one may differ. */
  ghost predicate Untouched(before: map<string, string>, after: map<string, string>, wanted: seq<string>,
                            uuid: string) {
    && after.Keys == before.Keys
    && (forall n :: n in before && after[n] != before[n] ==>
          after[n] == uuid && exists i :: 0 <= i < |wanted| && Trim(n) == Trim(wanted[i]))
  }

  /** Every wanted CIDR is spelled like a network of the cloud, and no two networks share an address. */
  ghost predicate Addressable(networks: set<string>, wanted: seq<string>) {
    && (forall i :: 0 <= i < |wanted| ==> wanted[i] in networks)
    && (forall m, n :: m in networks && n in networks && Trim(m) == Trim(n) ==> m == n)
  }

  ghost predicate Attached(attached: map<string, string>, wanted: seq<string>, n: nat, uuid: string) {
    forall i :: 0 <= i < n && i < |wanted| ==> wanted[i] in attached && attached[wanted[i]] == uuid
  }

  /** Some network with the trimmed address of each of the first `n` wanted CIDRs is attached. */
  ghost predicate Served(attached: map<string, string>, wanted: seq<string>, n: nat, uuid: string) {
    forall i :: 0 <= i < n && i < |wanted| ==> ServedAt(attached, wanted[i], uuid)
  }

  ghost predicate ServedAt(attached: map<string, string>, cidr: string, uuid: string) {
    exists m :: m in attached && Trim(m) == Trim(cidr) && attached[m] == uuid
  }

  /** A CIDR is served by itself exactly unless a served network of another spelling has its trimmed address. */
  lemma ServedByItself(attached: map<string, string>, cidr: string, uuid: string)
    requires ServedAt(attached, cidr, uuid)
    ensures (cidr in attached && attached[cidr] == uuid) ||
            exists m :: m in attached && m != cidr && Trim(m) == Trim(cidr) && attached[m] == uuid
  {
    hide Trim;
  }

  lemma ServedMeansAttached(attached: map<string, string>, wanted: seq<string>, uuid: string)
    requires Served(attached, wanted, |wanted|, uuid) && Addressable(attached.Keys, wanted)
    ensures Attached(attached, wanted, |wanted|, uuid)
  {
    hide Trim;
    forall i | 0 <= i < |wanted| ensures wanted[i] in attached && attached[wanted[i]] == uuid {
      ServedByItself(attached, wanted[i], uuid);
    }
  }

  /** Where the loop stands after `n` wanted addresses. */
  ghost predicate Attaching(before: map<string, string>, now: map<string, string>, wanted: seq<string>, n: nat,
                            uuid: string) {
    Untouched(before, now, wanted, uuid) && Served(now, wanted, n, uuid)
  }

  lemma AttachStep(before: map<string, string>, now: map<string, string>, wanted: seq<string>, n: nat, uuid: string,
                   m: string)
    requires Attaching(before, now, wanted, n, uuid) && n < |wanted| && m in now && Trim(m) == Trim(wanted[n])
    ensures Attaching(before, now[m := uuid], wanted, n + 1, uuid)
  {
    hide Trim;
    var next := now[m := uuid];
    assert next.Keys == now.Keys;
    forall i | 0 <= i < n + 1 ensures ServedAt(next, wanted[i], uuid) {
      if i < n {
        var x :| x in now && Trim(x) == Trim(wanted[i]) && now[x] == uuid;
        assert next[x] == uuid;
      } else {
        assert next[m] == uuid;
      }
    }
  }

  lemma SkipStep(before: map<string, string>, now: map<string, string>, wanted: seq<string>, n: nat, uuid: string)
    requires Attaching(before, now, wanted, n, uuid) && n < |wanted|
    requires wanted[n] in before && before[wanted[n]] == uuid
    ensures Attaching(before, now, wanted, n + 1, uuid)
  {
    hide Trim;
    assert now[wanted[n]] == uuid && ServedAt(now, wanted[n], uuid);
  }

  ghost predicate AllUntouched(before: map<string, string>, log: seq<map<string, string>>, from: nat,
                               wanted: seq<string>, uuid: string) {
    forall i :: from <= i < |log| ==> Untouched(before, log[i], wanted, uuid)
  }

  lemma NoCallYet(before: map<string, string>, log: seq<map<string, string>>, wanted: seq<string>, uuid: string)
    ensures AllUntouched(before, log, |log|, wanted, uuid)
  {
  }

  /** A call has been made: its effect, if any, was to attach `m`. */
  lemma CallMade(before: map<string, string>, log: seq<map<string, string>>, from: nat, now: map<string, string>,
                 next: map<string, string>,
                 wanted: seq<string>, n: nat, uuid: string, ok: bool)
    requires Attaching(before, now, wanted, n, uuid) && n < |wanted| && AllUntouched(before, log, from, wanted, uuid)
    requires next == now || exists m :: m in now && Trim(m) == Trim(wanted[n]) && next == now[m := uuid]
    requires ok ==> exists m :: m in now && Trim(m) == Trim(wanted[n]) && next == now[m := uuid]
    ensures AllUntouched(before, log + [next], from, wanted, uuid) && Untouched(before, next, wanted, uuid)
    ensures ok ==> Attaching(before, next, wanted, n + 1, uuid)
  {
    hide Trim;
    if m :| m in now && Trim(m) == Trim(wanted[n]) && next == now[m := uuid] {
      AttachStep(before, now, wanted, n, uuid, m);
    }
    hide Untouched;
  }

  lemma AllMade(before: map<string, string>, now: map<string, string>, wanted: seq<string>, uuid: string)
    requires Attaching(before, now, wanted, |wanted|, uuid)
    ensures Untouched(before, now, wanted, uuid) && Served(now, wanted, |wanted|, uuid)
    ensures Addressable(before.Keys, wanted) ==> Attached(now, wanted, |wanted|, uuid)
  {
    if Addressable(before.Keys, wanted) {
      ServedMeansAttached(now, wanted, uuid);
    }
  }

  lemma NotAllAttached(before: map<string, string>, wanted: seq<string>, n: nat, uuid: string)
    requires n < |wanted| && !(wanted[n] in before && before[wanted[n]] == uuid)
    ensures !Attached(before, wanted, |wanted|, uuid)
  {
  }

  /** No network has the trimmed address of some wanted CIDR. */
  ghost predicate Homeless(networks: set<string>, wanted: seq<string>) {
    exists i :: 0 <= i < |wanted| && NoNetwork(networks, wanted[i])
  }

  ghost predicate NoNetwork(networks: set<string>, cidr: string) {
    forall n :: n in networks ==> Trim(n) != Trim(cidr)
  }

  lemma SameNetworks(before: map<string, string>, now: map<string, string>, wanted: seq<string>, n: nat, uuid: string)
    requires Attaching(before, now, wanted, n, uuid)
    ensures now.Keys == before.Keys
  {
  }

  ghost function Elements(s: seq<string>): set<string> {
    set c | c in s
  }

  lemma OneMoreElement(s: seq<string>, n: nat)
    requires n < |s|
    ensures Elements(s[..n + 1]) == Elements(s[..n]) + {s[n]}
  {
    assert s[..n + 1] == s[..n] + [s[n]];
  }

  /** One object's attach loop.  Stopped anywhere, it has changed nothing but wanted addresses, and those
      only to its own load balancer; finished, every wanted address is attached, under its own spelling
      if no two networks share a trimmed address.  Run on a cloud where all
      are attached, it makes no call that changes anything. */
  method AttachFloatingIPs(service: FloatingIPService, uuid: string, wanted: seq<string>)
    returns (ok: bool, have: seq<string>)
    modifies service
    ensures Untouched(old(service.attached), service.attached, wanted, uuid)
    ensures AllUntouched(old(service.attached), service.log, |old(service.log)|, wanted, uuid)
    ensures ok ==> Served(service.attached, wanted, |wanted|, uuid)
    ensures service.failures >= old(service.failures) && (ok ==> service.failures == old(service.failures))
    ensures service.failures == old(service.failures) ==> ok || Homeless(old(service.attached.Keys), wanted)
    ensures ok && Addressable(old(service.attached.Keys), wanted) ==> Attached(service.attached, wanted, |wanted|, uuid)
    ensures ok ==> Sorted(Compare, have) && multiset(have) == multiset(Elements(wanted))
    ensures Attached(old(service.attached), wanted, |wanted|, uuid) ==>
      service.log == old(service.log) && service.attached == old(service.attached)
  {
    assert Sorted(Compare, []) && Elements([]) == {} && wanted[..0] == [];
    hide Trim, Untouched, Addressable, Sorted, Attaching, Attached, Served, AllUntouched, Elements;
    Started(service.attached, wanted, uuid);
    NoCallYet(service.attached, service.log, wanted, uuid);
    if wanted == [] {
      AllMade(service.attached, service.attached, wanted, uuid);
      return true, [];
    }
    var actual;
    ok, actual := service.List();
    if !ok {
      return false, [];
    }
    ghost var before, from := service.attached, |service.log|;
    var haveIPs: set<string> := {};
    var n := 0;
    while n < |wanted|
      invariant 0 <= n <= |wanted|
      invariant |old(service.log)| <= |service.log|
      invariant Attaching(before, service.attached, wanted, n, uuid)
      invariant AllUntouched(before, service.log, from, wanted, uuid)
      invariant haveIPs == Elements(wanted[..n]) && service.failures == old(service.failures)
      invariant Attached(before, wanted, |wanted|, uuid) ==>
        service.log == old(service.log) && service.attached == before
    {
      var c := wanted[n];
      if c in actual && actual[c] == uuid {
        SkipStep(before, service.attached, wanted, n, uuid);
      } else {
        NotAllAttached(before, wanted, n, uuid);
        ghost var now, log := service.attached, service.log;
        SameNetworks(before, now, wanted, n, uuid);
        ok := service.Update(Trim(c), uuid);
        CallMade(before, log, from, now, service.attached, wanted, n, uuid, ok);
        if !ok {
          return false, [];
        }
      }
      OneMoreElement(wanted, n);
      haveIPs := haveIPs + {c};
      n := n + 1;
    }
    assert wanted[..|wanted|] == wanted;
    AllMade(before, service.attached, wanted, uuid);
    have := ListSet(haveIPs);
    ok := true;
  }

  lemma Started(before: map<string, string>, wanted: seq<string>, uuid: string)
    ensures Attaching(before, before, wanted, 0, uuid) && Untouched(before, before, wanted, uuid)
  {
  }
}
