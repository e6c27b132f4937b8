/** What a piece of work leaves alone: rows outside its footprint, in every state its calls leave behind. */
module Frames {
  import opened Tables
  import opened Patching

  /** A table at some moment. */
  datatype Moment<!T> = Moment(rows: map<string, T>, log: seq<map<string, T>>)

  ghost function Now<T(!new)>(t: Table<T>): Moment<T>
    reads t
  {
    Moment(t.rows, t.log)
  }

  /** Between two moments only rows in `f` changed, in every state in between as well. */
  ghost predicate Framed<T(!new)>(a: Moment<T>, b: Moment<T>, f: T -> bool) {
    && a.log <= b.log
    && SameElsewhere(a.rows, b.rows, f)
    && forall i :: |a.log| <= i < |b.log| ==> SameElsewhere(a.rows, b.log[i], f)
  }

  /** What happened between two moments is the outcome of calls, one after another. */
  ghost predicate ByCalls<T(!new)>(a: Moment<T>, b: Moment<T>) {
    && a.log <= b.log
    && var since := b.log[|a.log|..];
       && b.rows == Before(a.rows, since, |since|)
       && forall i :: 0 <= i < |since| ==> OneCall(Before(a.rows, since, i), since[i])
  }

  lemma SinceThen<T(!new)>(start: map<string, T>, a: Moment<T>, b: Moment<T>, i: nat)
    requires a.log <= b.log && a.rows == Before(start, a.log, |a.log|) && i <= |b.log| - |a.log|
    ensures Before(a.rows, b.log[|a.log|..], i) == Before(start, b.log, |a.log| + i)
  {
    if i == 0 && a.log != [] {
      assert b.log[|a.log| - 1] == a.log[|a.log| - 1];
    }
  }

  lemma TracedAt<T(!new)>(start: map<string, T>, a: Moment<T>, i: nat)
    requires Traced(start, a.log, a.rows) && i < |a.log|
    ensures OneCall(Before(start, a.log, i), a.log[i])
  {
  }

  lemma TracedNow<T(!new)>(start: map<string, T>, a: Moment<T>)
    requires Traced(start, a.log, a.rows)
    ensures a.rows == Before(start, a.log, |a.log|)
  {
  }

  lemma TracedByCalls<T(!new)>(start: map<string, T>, a: Moment<T>, b: Moment<T>)
    requires Traced(start, a.log, a.rows) && Traced(start, b.log, b.rows) && a.log <= b.log
    ensures ByCalls(a, b)
  {
    hide OneCall, Traced, Before;
    var n, since := |a.log|, b.log[|a.log|..];
    TracedNow(start, a);
    TracedNow(start, b);
    SinceThen(start, a, b, |since|);
    forall i | 0 <= i < |since| ensures OneCall(Before(a.rows, since, i), since[i]) {
      TracedAt(start, b, n + i);
      SinceThen(start, a, b, i);
    }
  }

  lemma ElsewhereChain<T(!new)>(a: map<string, T>, b: map<string, T>, c: map<string, T>, f: T -> bool)
    requires SameElsewhere(a, b, f) && SameElsewhere(b, c, f)
    ensures SameElsewhere(a, c, f)
  {
  }

  lemma ElsewhereWider<T(!new)>(a: map<string, T>, b: map<string, T>, f: T -> bool, g: T -> bool)
    requires SameElsewhere(a, b, f) && forall x :: f(x) ==> g(x)
    ensures SameElsewhere(a, b, g)
  {
  }

  lemma FramedChain<T(!new)>(a: Moment<T>, b: Moment<T>, c: Moment<T>, f: T -> bool)
    requires Framed(a, b, f) && Framed(b, c, f)
    ensures Framed(a, c, f)
  {
    hide SameElsewhere;
    ElsewhereChain(a.rows, b.rows, c.rows, f);
    forall i | |a.log| <= i < |c.log| ensures SameElsewhere(a.rows, c.log[i], f) {
      if i >= |b.log| {
        ElsewhereChain(a.rows, b.rows, c.log[i], f);
      } else {
        assert c.log[i] == b.log[i];
      }
    }
  }

  lemma FramedWider<T(!new)>(a: Moment<T>, b: Moment<T>, f: T -> bool, g: T -> bool)
    requires Framed(a, b, f) && forall x :: f(x) ==> g(x)
    ensures Framed(a, b, g)
  {
    hide SameElsewhere;
    ElsewhereWider(a.rows, b.rows, f, g);
    forall i | |a.log| <= i < |b.log| ensures SameElsewhere(a.rows, b.log[i], g) {
      ElsewhereWider(a.rows, b.log[i], f, g);
    }
  }

  lemma FramedSelf<T(!new)>(a: Moment<T>, f: T -> bool)
    ensures Framed(a, a, f)
  {
  }

  /** A property of some rows survives work that leaves those rows alone. */
  lemma OnlyElsewhere<T(!new)>(a: map<string, T>, b: map<string, T>, f: T -> bool, g: T -> bool, id: string)
    requires SameElsewhere(a, b, f) && (forall x :: !(f(x) && g(x))) && Only(a, g, id)
    ensures Only(b, g, id) && b[id] == a[id]
  {
    forall j | j in b ensures g(b[j]) <==> j == id {
      if g(b[j]) {
        assert !f(b[j]);
      }
      if j == id {
        assert !f(a[id]);
      }
    }
  }

  lemma AtMostOneElsewhere<T(!new)>(a: map<string, T>, b: map<string, T>, f: T -> bool, g: T -> bool)
    requires SameElsewhere(a, b, f) && (forall x :: !(f(x) && g(x))) && AtMostOne(a, g)
    ensures AtMostOne(b, g)
  {
    forall i, j | i in b && j in b && g(b[i]) && g(b[j]) ensures i == j {
      assert !f(b[i]) && !f(b[j]);
    }
  }

  lemma KeptFramed<T(!new)>(p: Plan<T>, before: map<string, T>, log: seq<map<string, T>>, now: map<string, T>,
                            steps: seq<map<string, T>>, goal: T)
    requires Kept(p, before, now, goal) && AllKept(p, before, steps, goal)
    ensures Framed(Moment(before, log), Moment(now, log + steps), p.mine)
  {
    hide SameElsewhere, Leads;
    forall i | |log| <= i < |log + steps| ensures SameElsewhere(before, (log + steps)[i], p.mine) {
      assert Kept(p, before, steps[i - |log|], goal);
    }
  }

  /** Every pool has at most one child. */
  ghost predicate OnePerPool<T(!new)>(rows: map<string, T>, pool: T -> string) {
    forall i, j :: i in rows && j in rows && pool(rows[i]) == pool(rows[j]) ==> i == j
  }

  ghost predicate AlwaysOnePerPool<T(!new)>(log: seq<map<string, T>>, from: nat, pool: T -> string) {
    forall i :: from <= i < |log| ==> OnePerPool(log[i], pool)
  }

  lemma KeptOne<T(!new)>(p: Plan<T>, before: map<string, T>, now: map<string, T>, goal: T, pool: T -> string,
                         mine: string)
    requires Kept(p, before, now, goal) && OnePerPool(before, pool) && forall x :: p.mine(x) <==> pool(x) == mine
    ensures OnePerPool(now, pool)
  {
    hide Final;
    forall i, j | i in now && j in now && pool(now[i]) == pool(now[j]) ensures i == j {
      if pool(now[i]) != mine {
        assert !p.mine(now[i]) && !p.mine(now[j]);
      }
    }
  }

  lemma KeptAlwaysOne<T(!new)>(p: Plan<T>, before: map<string, T>, log: seq<map<string, T>>, now: map<string, T>,
                               steps: seq<map<string, T>>,
                               goal: T, pool: T -> string, mine: string)
    requires Kept(p, before, now, goal) && AllKept(p, before, steps, goal) && forall x :: p.mine(x) <==> pool(x) == mine
    requires OnePerPool(before, pool)
    ensures OnePerPool(now, pool) && AlwaysOnePerPool(log + steps, |log|, pool)
  {
    hide Kept, OnePerPool;
    KeptOne(p, before, now, goal, pool, mine);
    forall i | |log| <= i < |log + steps| ensures OnePerPool((log + steps)[i], pool) {
      KeptOne(p, before, steps[i - |log|], goal, pool, mine);
    }
  }
}
