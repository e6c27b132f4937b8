/** The status of a pool: lines 178-193 of `Reconcile`. */
module Statuses {
  import opened Api
  import opened Orders
  import opened Tables
  import opened Members

  function BackendOf(m: Member): StatusBackend {
    StatusBackend(m.nodeName, m.serverName, m.address, m.monitorStatus)
  }

  function BackendsOf(listed: seq<(string, Member)>): seq<StatusBackend> {
    if listed == [] then [] else BackendsOf(listed[..|listed| - 1]) + [BackendOf(listed[|listed| - 1].1)]
  }

  function SortKey(b: StatusBackend): (string, string) {
    (b.nodeName, b.address)
  }

  function CompareBackends(a: StatusBackend, b: StatusBackend): int {
    10 * Compare(a.nodeName, b.nodeName) + Compare(a.address, b.address)
  }

  lemma BackendOrdering()
    ensures Ordering(CompareBackends)
    ensures forall a, b :: CompareBackends(a, b) == 0 <==> SortKey(a) == SortKey(b)
  {
    PairOrdering();
    assert forall a, b :: CompareBackends(a, b) == ComparePair(SortKey(a), SortKey(b));
    hide Compare, ComparePair, SortKey, CompareBackends;
  }

  // ---------------------------------------------------------------- independence of the list order

  /** The members of a pool are told apart by node name and address, as far as the status shows them. */
  ghost predicate Distinguished(rows: map<string, Member>, pool: string) {
    forall i, j :: i in rows && j in rows && rows[i].pool == rows[j].pool == pool ==>
      SortKey(BackendOf(rows[i])) == SortKey(BackendOf(rows[j])) ==> BackendOf(rows[i]) == BackendOf(rows[j])
  }

  lemma {:induction false} Occurrences<T>(s: seq<T>, x: T)
    requires forall i, j :: 0 <= i < j < |s| ==> s[i] != s[j]
    ensures multiset(s)[x] == if x in s then 1 else 0
  {
    if s != [] {
      var init, last := s[..|s| - 1], s[|s| - 1];
      assert s == init + [last];
      Occurrences(init, x);
      assert last !in init;
    }
  }

  /** Any two list answers are permutations of each other. */
  lemma AnswersPermuted(a: seq<(string, Member)>, b: seq<(string, Member)>, rows: map<string, Member>, pool: string)
    requires Enumerates(a, rows, InPool(pool)) && Enumerates(b, rows, InPool(pool))
    ensures multiset(a) == multiset(b)
  {
    forall x ensures multiset(a)[x] == multiset(b)[x] {
      Occurrences(a, x);
      Occurrences(b, x);
      assert x in a <==> x.0 in rows && InPool(pool)(rows[x.0]) && x.1 == rows[x.0];
      assert x in b <==> x.0 in rows && InPool(pool)(rows[x.0]) && x.1 == rows[x.0];
    }
  }

  /** Permuted answers yield permuted backends. */
  lemma {:induction false} BackendsPermuted(a: seq<(string, Member)>, b: seq<(string, Member)>)
    requires multiset(a) == multiset(b)
    ensures multiset(BackendsOf(a)) == multiset(BackendsOf(b))
    decreases |a|
  {
    if a == [] {
      assert |multiset(b)| == |b|;
    } else {
      var init, last := a[..|a| - 1], a[|a| - 1];
      var rest := Without(a, b);
      BackendsPermuted(init, rest);
    }
  }

  /** Takes the last element of `a` out of `b`. */
  ghost function Without(a: seq<(string, Member)>, b: seq<(string, Member)>): (rest: seq<(string, Member)>)
    requires multiset(a) == multiset(b) && a != []
    ensures multiset(rest) == multiset(a[..|a| - 1])
    ensures multiset(BackendsOf(b)) == multiset(BackendsOf(rest)) + multiset{BackendOf(a[|a| - 1].1)}
  {
    var last := a[|a| - 1];
    assert last in multiset(b);
    var k :| 0 <= k < |b| && b[k] == last;
    WithoutSame(a, b, k);
    BackendsWithout(b, k);
    b[..k] + b[k + 1..]
  }

  lemma Cancel<T>(p: multiset<T>, q: multiset<T>, x: T)
    requires p + multiset{x} == q + multiset{x}
    ensures p == q
  {
    assert p == (p + multiset{x}) - multiset{x};
    assert q == (q + multiset{x}) - multiset{x};
  }

  lemma WithoutSame<T>(a: seq<T>, b: seq<T>, k: nat)
    requires multiset(a) == multiset(b) && a != [] && k < |b| && b[k] == a[|a| - 1]
    ensures multiset(b[..k] + b[k + 1..]) == multiset(a[..|a| - 1])
  {
    var init, last := a[..|a| - 1], a[|a| - 1];
    assert a == init + [last];
    assert b == b[..k] + [last] + b[k + 1..];
    assert multiset(b) == multiset(b[..k] + b[k + 1..]) + multiset{last};
    Cancel(multiset(b[..k] + b[k + 1..]), multiset(init), last);
  }

  lemma LastBackend(b: seq<(string, Member)>)
    requires b != []
    ensures multiset(BackendsOf(b)) == multiset(BackendsOf(b[..|b| - 1])) + multiset{BackendOf(b[|b| - 1].1)}
  {
  }

  lemma {:induction false} BackendsWithout(b: seq<(string, Member)>, k: nat)
    requires k < |b|
    ensures multiset(BackendsOf(b)) == multiset(BackendsOf(b[..k] + b[k + 1..])) + multiset{BackendOf(b[k].1)}
    decreases |b|
  {
    hide BackendsOf, BackendOf;
    var init, rest := b[..|b| - 1], b[..k] + b[k + 1..];
    LastBackend(b);
    if k == |b| - 1 {
      assert rest == init;
    } else {
      BackendsWithout(init, k);
      assert rest[..|rest| - 1] == init[..k] + init[k + 1..] && rest[|rest| - 1] == b[|b| - 1];
      LastBackend(rest);
    }
  }

  /** The backends are those of the members of the pool, in order of node name and address. */
  ghost predicate Reported(backends: seq<StatusBackend>, rows: map<string, Member>, pool: string) {
    Sorted(CompareBackends, backends)
    && exists listed :: Enumerates(listed, rows, InPool(pool)) && multiset(backends) == multiset(BackendsOf(listed))
  }

  /** A reported backend shows node, server, address and monitor status of a member. */
  ghost predicate Shows(b: StatusBackend, m: Member) {
    b.nodeName == m.nodeName && b.serverName == m.serverName && b.address == m.address && b.status == m.monitorStatus
  }

  lemma ShownExactly(listed: seq<(string, Member)>, backends: seq<StatusBackend>, b: StatusBackend)
    requires multiset(backends) == multiset(BackendsOf(listed))
    ensures b in backends <==> exists i :: 0 <= i < |listed| && Shows(b, listed[i].1)
  {
    assert b in backends <==> b in multiset(backends);
    assert b in BackendsOf(listed) <==> b in multiset(BackendsOf(listed));
    BackendsLength(listed);
    if b in BackendsOf(listed) {
      var i :| 0 <= i < |BackendsOf(listed)| && BackendsOf(listed)[i] == b;
      BackendsContents(listed, i);
      assert Shows(b, listed[i].1);
    }
    if i :| 0 <= i < |listed| && Shows(b, listed[i].1) {
      BackendsContents(listed, i);
      assert BackendsOf(listed)[i] == b;
    }
  }

  lemma {:induction false} BackendsLength(listed: seq<(string, Member)>)
    ensures |BackendsOf(listed)| == |listed|
  {
    if listed != [] {
      BackendsLength(listed[..|listed| - 1]);
    }
  }

  method StatusBackends(listed: seq<(string, Member)>) returns (backends: seq<StatusBackend>)
    ensures Sorted(CompareBackends, backends) && multiset(backends) == multiset(BackendsOf(listed))
    ensures |backends| == |listed|
    ensures forall b :: b in backends <==> exists i :: 0 <= i < |listed| && Shows(b, listed[i].1)
  {
    backends := [];
    for n := 0 to |listed|
      invariant backends == BackendsOf(listed[..n])
    {
      var m := listed[n].1;
      assert listed[..n + 1][..n] == listed[..n];
      backends := backends + [StatusBackend(m.nodeName, m.serverName, m.address, m.monitorStatus)];
    }
    assert listed[..|listed|] == listed;
    BackendOrdering();
    backends := SortFunc(CompareBackends, backends);
    BackendsLength(listed);
    assert |multiset(backends)| == |backends| && |multiset(BackendsOf(listed))| == |BackendsOf(listed)|;
    forall b ensures b in backends <==> exists i :: 0 <= i < |listed| && Shows(b, listed[i].1) {
      ShownExactly(listed, backends, b);
    }
  }

  lemma {:induction false} BackendsContents(listed: seq<(string, Member)>, i: nat)
    requires i < |listed|
    ensures |BackendsOf(listed)| == |listed| && BackendsOf(listed)[i] == BackendOf(listed[i].1)
  {
    if i < |listed| - 1 {
      BackendsContents(listed[..|listed| - 1], i);
    } else if |listed| > 1 {
      BackendsContents(listed[..|listed| - 1], 0);
    }
  }

  /** Node names and addresses tell the members apart exactly when they tell the backends of an answer apart. */
  lemma DistinguishedSeparates(listed: seq<(string, Member)>, rows: map<string, Member>, pool: string)
    requires Enumerates(listed, rows, InPool(pool))
    ensures Separates(CompareBackends, BackendsOf(listed)) <==> Distinguished(rows, pool)
  {
    BackendOrdering();
    var s := BackendsOf(listed);
    if listed != [] { BackendsContents(listed, 0); }
    forall i | 0 <= i < |listed| ensures s[i] == BackendOf(listed[i].1) {
      BackendsContents(listed, i);
    }
    hide CompareBackends, SortKey, BackendsOf, BackendOf, Ordering;
    if Separates(CompareBackends, s) {
      forall i, j | i in rows && j in rows && rows[i].pool == rows[j].pool == pool
        && SortKey(BackendOf(rows[i])) == SortKey(BackendOf(rows[j])) ensures BackendOf(rows[i]) == BackendOf(rows[j]) {
        var p :| 0 <= p < |listed| && listed[p] == (i, rows[i]);
        var q :| 0 <= q < |listed| && listed[q] == (j, rows[j]);
        assert CompareBackends(s[p], s[q]) == 0;
      }
    }
  }

  /** Computing the status from one answer is canonical exactly when node name and address tell the members
      of the pool apart. */
  lemma StatusCanonical(listed: seq<(string, Member)>, rows: map<string, Member>, pool: string)
    requires Enumerates(listed, rows, InPool(pool))
    ensures Canonical(CompareBackends, BackendsOf(listed)) <==> Distinguished(rows, pool)
  {
    BackendOrdering();
    DistinguishedSeparates(listed, rows, pool);
    CanonicalExactly(CompareBackends, BackendsOf(listed));
  }

  /** Then any two computations, from answers in any order, report the same. */
  lemma ReportedUnique(a: seq<StatusBackend>, b: seq<StatusBackend>, rows: map<string, Member>, pool: string)
    requires Reported(a, rows, pool) && Reported(b, rows, pool) && Distinguished(rows, pool)
    ensures a == b
  {
    hide Distinguished, Sorted, Enumerates, CompareBackends, BackendsOf;
    var x :| Enumerates(x, rows, InPool(pool)) && multiset(a) == multiset(BackendsOf(x));
    var y :| Enumerates(y, rows, InPool(pool)) && multiset(b) == multiset(BackendsOf(y));
    AnswersPermuted(x, y, rows, pool);
    BackendsPermuted(x, y);
    StatusCanonical(x, rows, pool);
  }
}
