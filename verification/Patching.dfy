/** What `ensureLoadBalancerListener` and `ensureLoadBalancerHealthMonitor` have in common: a pool has one
    child, which is created if there is none, deleted and recreated if it cannot be patched, and otherwise
    patched one field at a time. */
module Patching {
  import opened Tables

  /** A compared field: whether a row differs from the request, and what the patch call does to a row. */
  datatype Field<!T> = Field(differs: T -> bool, patch: T -> T)

  /** A request: the row to create, which rows have to be recreated, and the compared fields in order. */
  datatype Plan<!T> = Plan(mine: T -> bool, want: T, recreate: T -> bool, fields: seq<Field<T>>)

  /** The row after the first `n` fields have been compared, and patched if they differed in the listed row. */
  ghost function Stage<T>(fields: seq<Field<T>>, row: T, n: nat): T
    requires n <= |fields|
  {
    if n == 0 then row
    else
      var x := Stage(fields, row, n - 1);
      if fields[n - 1].differs(row) then fields[n - 1].patch(x) else x
  }

  ghost function Goal<T>(fields: seq<Field<T>>, row: T): T {
    Stage(fields, row, |fields|)
  }

  /** The number of patch calls made for the first `n` fields. */
  ghost function Calls<T>(fields: seq<Field<T>>, row: T, n: nat): nat
    requires n <= |fields|
  {
    if n == 0 then 0 else Calls(fields, row, n - 1) + One(fields[n - 1].differs(row))
  }

  /** Only the row `id` differs from the start, and it is at some stage of being patched. */
  ghost predicate AtStage<T>(before: map<string, T>, now: map<string, T>, id: string, fields: seq<Field<T>>) {
    id in before && exists n :: 0 <= n <= |fields| && now == before[id := Stage(fields, before[id], n)]
  }

  ghost predicate AllAtStage<T>(before: map<string, T>, steps: seq<map<string, T>>, id: string, fields: seq<Field<T>>) {
    forall i :: 0 <= i < |steps| ==> AtStage(before, steps[i], id, fields)
  }

  lemma StageStep<T>(before: map<string, T>, id: string, fields: seq<Field<T>>, n: nat)
    requires id in before && n < |fields|
    ensures var x := Stage(fields, before[id], n);
            var y := Stage(fields, before[id], n + 1);
            && AtStage(before, before[id := x], id, fields) && AtStage(before, before[id := y], id, fields)
            && (if fields[n].differs(before[id]) then y == fields[n].patch(x) else y == x)
            && before[id := x][id := y] == before[id := y]
  {
  }

  /** Lines 443-548 and 616-658: a patch call for every field that differs.  The source has the loop
      written out. */
  method PatchFields<T(!new, ==)>(t: Table<T>, id: string, row: T, fields: seq<Field<T>>)
    returns (ok: bool, ghost steps: seq<map<string, T>>)
    requires t.Valid() && id in t.rows && t.rows[id] == row
    modifies t
    ensures t.Valid() && t.minted == old(t.minted) && t.log == old(t.log) + steps
    ensures AtStage(old(t.rows), t.rows, id, fields) && AllAtStage(old(t.rows), steps, id, fields)
    ensures ok ==> t.rows == old(t.rows)[id := Goal(fields, row)] && |steps| == Calls(fields, row, |fields|)
    ensures |steps| <= Calls(fields, row, |fields|) && (steps == [] ==> t.rows == old(t.rows))
    ensures t.failures >= old(t.failures) && (t.failures == old(t.failures) ==> ok)
  {
    hide Traced, AtStage, Stage;
    ghost var before := t.rows;
    steps := [];
    assert t.rows == before[id := Stage(fields, row, 0)] &&
      AtStage(before, before, id, fields) by { Started(before, id, fields); }
    var n := 0;
    while n < |fields|
      invariant n <= |fields| && t.Valid() && t.minted == old(t.minted) && t.log == old(t.log) + steps
      invariant t.rows == before[id := Stage(fields, row, n)] && AtStage(before, t.rows, id, fields)
      invariant AllAtStage(before, steps, id, fields) &&
        |steps| == Calls(fields, row, n) <= Calls(fields, row, |fields|)
      invariant steps == [] ==> t.rows == before
      invariant t.failures == old(t.failures)
    {
      StageStep(before, id, fields, n);
      CallsGrow(fields, row, n + 1);
      if fields[n].differs(row) {
        ok := t.Patch(id, fields[n].patch);
        steps := steps + [t.rows];
        if !ok {
          return;
        }
      }
      n := n + 1;
    }
    ok := true;
  }

  lemma Started<T>(before: map<string, T>, id: string, fields: seq<Field<T>>)
    requires id in before
    ensures before == before[id := Stage(fields, before[id], 0)] && AtStage(before, before, id, fields)
    ensures Calls(fields, before[id], 0) <= Calls(fields, before[id], |fields|)
  {
    CallsGrow(fields, before[id], 0);
  }

  lemma {:induction false} CallsGrow<T>(fields: seq<Field<T>>, row: T, n: nat)
    requires n <= |fields|
    ensures Calls(fields, row, n) <= Calls(fields, row, |fields|)
    decreases |fields| - n
  {
    if n < |fields| {
      CallsGrow(fields, row, n + 1);
    }
  }

  function One(b: bool): nat {
    if b then 1 else 0
  }

  // ---------------------------------------------------------------- one child per pool

  /** At most one row belongs to the pool. */
  ghost predicate AtMostOne<T(!new)>(rows: map<string, T>, f: T -> bool) {
    forall i, j :: i in rows && j in rows && f(rows[i]) && f(rows[j]) ==> i == j
  }

  ghost predicate Only<T(!new)>(rows: map<string, T>, f: T -> bool, id: string) {
    id in rows && forall j :: j in rows ==> (f(rows[j]) <==> j == id)
  }

  lemma OnlyOne<T(!new)>(rows: map<string, T>, f: T -> bool, id: string)
    requires Only(rows, f, id)
    ensures AtMostOne(rows, f)
  {
  }

  /** Rows of other pools are the same. */
  ghost predicate SameElsewhere<T(!new)>(before: map<string, T>, now: map<string, T>, f: T -> bool) {
    && (forall id :: id in before && !f(before[id]) ==> id in now && now[id] == before[id])
    && (forall id :: id in now && !f(now[id]) ==> id in before && now[id] == before[id])
  }

  /** What the child `row` becomes. */
  ghost function Final<T>(p: Plan<T>, row: T): T {
    if p.recreate(row) then p.want else Goal(p.fields, row)
  }

  /** The pool has no child yet, or exactly one, and the child is to become `goal`. */
  ghost predicate Leads<T(!new)>(p: Plan<T>, rows: map<string, T>, goal: T) {
    && AtMostOne(rows, p.mine)
    && (forall id :: id in rows && p.mine(rows[id]) ==> Final(p, rows[id]) == goal)
    && ((forall id :: id in rows ==> !p.mine(rows[id])) ==> goal == p.want)
  }

  /** A plan is sound if patching keeps a row in its pool, never makes it one to recreate, and leads to the
      same row from every stage at which it may be interrupted; and if the requested row is final. */
  ghost predicate Sound<T(!new)>(p: Plan<T>) {
    && p.mine(p.want) && Final(p, p.want) == p.want
    && (forall row, n :: 0 <= n <= |p.fields| && p.mine(row) && !p.recreate(row) ==> Resumes(p, row, n))
  }

  ghost predicate Resumes<T(!new)>(p: Plan<T>, row: T, n: nat)
    requires n <= |p.fields|
  {
    var x := Stage(p.fields, row, n);
    p.mine(x) && !p.recreate(x) && Goal(p.fields, x) == Goal(p.fields, row)
  }

  /** Every state left by a call leads to the same child, and other pools are untouched. */
  ghost predicate Kept<T(!new)>(p: Plan<T>, before: map<string, T>, now: map<string, T>, goal: T) {
    SameElsewhere(before, now, p.mine) && Leads(p, now, goal)
  }

  ghost predicate AllKept<T(!new)>(p: Plan<T>, before: map<string, T>, steps: seq<map<string, T>>, goal: T) {
    forall i :: 0 <= i < |steps| ==> Kept(p, before, steps[i], goal)
  }

  lemma ListedCount<T(!new)>(listed: seq<(string, T)>, rows: map<string, T>, f: T -> bool)
    requires Enumerates(listed, rows, f)
    ensures |listed| == 0 ==> forall id :: id in rows ==> !f(rows[id])
    ensures |listed| == 1 ==> Only(rows, f, listed[0].0) && rows[listed[0].0] == listed[0].1
    ensures |listed| > 1 <==> !AtMostOne(rows, f)
  {
    if |listed| > 1 {
      assert listed[0].0 != listed[1].0;
    }
  }

  lemma CreateKept<T(!new)>(p: Plan<T>, before: map<string, T>, now: map<string, T>, id: string, goal: T)
    requires Kept(p, before, now, goal) && id !in before && id !in now && p.mine(p.want) && Final(p, p.want) == p.want
    requires forall id :: id in now ==> !p.mine(now[id])
    ensures goal == p.want && Kept(p, before, now[id := p.want], goal) && Only(now[id := p.want], p.mine, id)
  {
    hide Final;
  }

  lemma DeleteKept<T(!new)>(p: Plan<T>, before: map<string, T>, id: string, goal: T)
    requires Leads(p, before, goal) && Only(before, p.mine, id) && p.recreate(before[id])
    ensures Kept(p, before, before - {id}, goal) && forall j :: j in before - {id} ==> !p.mine((before - {id})[j])
  {
    assert Final(p, before[id]) == goal;
  }

  lemma PatchKept<T(!new)>(p: Plan<T>, before: map<string, T>, now: map<string, T>, id: string, goal: T)
    requires Sound(p) && Leads(p, before, goal) && Only(before, p.mine, id) && !p.recreate(before[id])
    requires AtStage(before, now, id, p.fields)
    ensures Kept(p, before, now, goal) && Only(now, p.mine, id)
  {
    var n :| 0 <= n <= |p.fields| && now == before[id := Stage(p.fields, before[id], n)];
    var x := Stage(p.fields, before[id], n);
    assert Resumes(p, before[id], n) && Final(p, before[id]) == goal;
    hide Stage, Goal, Sound;
    assert now == before[id := x] && p.mine(x) && Final(p, x) == goal;
    assert Only(now, p.mine, id);
    assert Leads(p, now, goal);
  }

  /** There is exactly one goal for a pool that has at most one child. */
  lemma OneGoal<T(!new)>(p: Plan<T>, rows: map<string, T>)
    requires AtMostOne(rows, p.mine)
    ensures exists goal :: Leads(p, rows, goal) && forall other :: Leads(p, rows, other) ==> other == goal
  {
    hide Final;
    if id :| id in rows && p.mine(rows[id]) {
      assert Leads(p, rows, Final(p, rows[id]));
    } else {
      assert Leads(p, rows, p.want);
    }
  }

  /** The one child of a pool.  `goal` is what the child is to become.  Every state left by a call, answered
      or not, has at most one child and leads to the same goal when the work is resumed; finished, the child
      is the goal.  A pool with several children is left alone with an error. */
  method EnsureOne<T(!new, ==)>(t: Table<T>, p: Plan<T>, ghost goal: T)
    returns (ok: bool, id: string, ghost steps: seq<map<string, T>>)
    requires t.Valid() && Sound(p) && (AtMostOne(t.rows, p.mine) ==> Leads(p, t.rows, goal))
    modifies t
    ensures t.Valid() && old(t.minted) <= t.minted && t.log == old(t.log) + steps
    ensures AtMostOne(old(t.rows), p.mine) ==>
      Kept(p, old(t.rows), t.rows, goal) && AllKept(p, old(t.rows), steps, goal)
    ensures !AtMostOne(old(t.rows), p.mine) ==> !ok && steps == []
    ensures steps == [] ==> t.rows == old(t.rows)
    ensures t.failures >= old(t.failures) && (t.failures == old(t.failures) ==> ok || !AtMostOne(old(t.rows), p.mine))
    ensures ok ==> Only(t.rows, p.mine, id) && t.rows[id] == goal
    ensures forall i :: Only(old(t.rows), p.mine, i) && !p.recreate(old(t.rows)[i]) ==>
      && |steps| <= Calls(p.fields, old(t.rows)[i], |p.fields|)
      && (ok ==> |steps| == Calls(p.fields, old(t.rows)[i], |p.fields|))
  {
    hide Traced, Kept, Sound, Leads, Calls, Final, AtStage, Goal, Enumerates, SameElsewhere, AtMostOne;
    id, steps := "", [];
    ghost var before := t.rows;
    if AtMostOne(before, p.mine) { NoCalls(p, before, goal); }
    var listed;
    ok, listed := t.List(p.mine);
    if !ok {
      return;
    }
    ListedCount(listed, before, p.mine);
    if |listed| == 0 {
      ok, id, steps := CreateOne(t, p, goal, before);
      return;
    }
    if |listed| > 1 {
      return false, "", [];
    }
    id := listed[0].0;
    if p.recreate(listed[0].1) {
      var missing;
      ok, missing := t.Delete(id);
      DeleteKept(p, before, id, goal);
      steps := [t.rows];
      if !ok {
        return;
      }
      ghost var more;
      ok, id, more := CreateOne(t, p, goal, before);
      steps := steps + more;
    } else {
      ok, steps := PatchFields(t, id, listed[0].1, p.fields);
      AllPatchKept(p, before, steps, id, goal);
      PatchKept(p, before, t.rows, id, goal);
      assert ok ==> t.rows[id] == goal by { GoalOf(p, before, id, goal); }
    }
  }

  lemma GoalOf<T(!new)>(p: Plan<T>, before: map<string, T>, id: string, goal: T)
    requires Leads(p, before, goal) && Only(before, p.mine, id) && !p.recreate(before[id])
    ensures Goal(p.fields, before[id]) == goal
  {
    assert Final(p, before[id]) == goal;
  }

  lemma NoCalls<T(!new)>(p: Plan<T>, before: map<string, T>, goal: T)
    requires Leads(p, before, goal)
    ensures Kept(p, before, before, goal)
  {
  }

  lemma AllPatchKept<T(!new)>(p: Plan<T>, before: map<string, T>, steps: seq<map<string, T>>, id: string, goal: T)
    requires Sound(p) && Leads(p, before, goal) && Only(before, p.mine, id) && !p.recreate(before[id])
    requires AllAtStage(before, steps, id, p.fields)
    ensures AllKept(p, before, steps, goal)
  {
    hide Sound, Kept, Leads, AtStage;
    forall i | 0 <= i < |steps| ensures Kept(p, before, steps[i], goal) {
      PatchKept(p, before, steps[i], id, goal);
    }
  }

  /** `createListener` and `createHealthMonitor`. */
  method CreateOne<T(!new, ==)>(t: Table<T>, p: Plan<T>, ghost goal: T, ghost before: map<string, T>)
    returns (ok: bool, id: string, ghost steps: seq<map<string, T>>)
    requires t.Valid() && Sound(p) && Kept(p, before, t.rows, goal) && before.Keys <= t.minted
    requires forall id :: id in t.rows ==> !p.mine(t.rows[id])
    modifies t
    ensures t.Valid() && old(t.minted) <= t.minted && t.log == old(t.log) + steps
    ensures Kept(p, before, t.rows, goal) && AllKept(p, before, steps, goal) && steps != []
    ensures t.failures == old(t.failures) + if ok then 0 else 1
    ensures ok ==> Only(t.rows, p.mine, id) && t.rows[id] == goal
  {
    hide Traced, Kept, Final;
    ok, id := t.Create(p.want);
    CreateKept(p, before, old(t.rows), id, goal);
    steps := [t.rows];
  }
}
