/** A collection of cloud resources as a client sees it: listed, created, patched and deleted by calls
    that may fail, and that may take effect even when they fail. */
module Tables {
  import opened Api

  /** `listed` is the answer of a list call: every row that passes the filter, once, in any order. */
  ghost predicate Enumerates<T(!new)>(listed: seq<(string, T)>, rows: map<string, T>, f: T -> bool) {
    && (forall i :: 0 <= i < |listed| ==> listed[i].0 in rows && rows[listed[i].0] == listed[i].1 && f(listed[i].1))
    && (forall id :: id in rows && f(rows[id]) ==> exists i :: 0 <= i < |listed| && listed[i] == (id, rows[id]))
    && (forall i, j :: 0 <= i < j < |listed| ==> listed[i].0 != listed[j].0)
  }

  /** A call that changes a table. */
  datatype Op<!T> = Insert(id: string, row: T) | Remove(id: string) | Change(id: string, change: T -> T)

  /** What a call does if it takes effect. */
  function Apply<T>(rows: map<string, T>, op: Op<T>): map<string, T> {
    match op
    case Insert(id, row) => rows[id := row]
    case Remove(id) => rows - {id}
    case Change(id, change) => if id in rows then rows[id := change(rows[id])] else rows
  }

  /** Identifiers are new when rows are inserted, and name a row when they are removed or changed. */
  predicate Legal<T>(rows: map<string, T>, op: Op<T>) {
    if op.Insert? then op.id !in rows else op.id in rows
  }

  /** The outcome of some call: it took effect or it did not. */
  ghost predicate OneCall<T(!new)>(before: map<string, T>, now: map<string, T>) {
    now == before || exists op :: Legal(before, op) && now == Apply(before, op)
  }

  ghost function Before<T>(start: map<string, T>, log: seq<map<string, T>>, i: int): map<string, T>
    requires 0 <= i <= |log|
  {
    if i == 0 then start else log[i - 1]
  }

  /** Every logged state is the outcome of a call on the one before it. */
  ghost predicate Traced<T(!new)>(start: map<string, T>, log: seq<map<string, T>>, rows: map<string, T>) {
    rows == Before(start, log, |log|) && forall i :: 0 <= i < |log| ==> OneCall(Before(start, log, i), log[i])
  }

  lemma TracedMore<T(!new)>(start: map<string, T>, log: seq<map<string, T>>, rows: map<string, T>, next: map<string, T>)
    requires Traced(start, log, rows) && OneCall(rows, next)
    ensures Traced(start, log + [next], next)
  {
    hide OneCall;
    var more := log + [next];
    forall i | 0 <= i < |more| ensures OneCall(Before(start, more, i), more[i]) {
      if i < |log| {
        assert Before(start, more, i) == Before(start, log, i);
      }
    }
  }

  lemma Called<T(!new)>(before: map<string, T>, op: Op<T>)
    requires Legal(before, op)
    ensures OneCall(before, Apply(before, op))
  {
  }

  lemma NoEffect<T(!new)>(before: map<string, T>)
    ensures OneCall(before, before)
  {
  }

  class Table<T(!new, ==)> {
    var rows: map<string, T>
    /** Every identifier ever handed out. */
    var minted: set<string>
    /** The rows after each call that may change them, whether or not it was answered. */
    ghost var log: seq<map<string, T>>
    ghost const start: map<string, T>
    /** How many calls were not answered, or answered with an error that is not about the row. */
    ghost var failures: nat

    ghost predicate Valid()
      reads this
    {
      rows.Keys <= minted && "" !in minted && Traced(start, log, rows)
    }

    constructor(rows: map<string, T>)
      requires "" !in rows
      ensures Valid() && this.rows == rows && log == [] && failures == 0
    {
      this.rows, start := rows, rows;
      minted := rows.Keys;
      log, failures := [], 0;
    }

    method List(f: T -> bool) returns (ok: bool, listed: seq<(string, T)>)
      modifies this`failures
      ensures ok ==> Enumerates(listed, rows, f)
      ensures failures == old(failures) + if ok then 0 else 1
    {
      listed := [];
      ok := *;
      if !ok {
        failures := failures + 1;
        return;
      }
      var rest := rows.Keys;
      while rest != {}
        invariant rest <= rows.Keys
        invariant forall i :: 0 <= i < |listed| ==>
          listed[i].0 in rows && listed[i].0 !in rest && rows[listed[i].0] == listed[i].1 && f(listed[i].1)
        invariant forall id :: id in rows && id !in rest && f(rows[id]) ==>
          exists i :: 0 <= i < |listed| && listed[i] == (id, rows[id])
        invariant forall i, j :: 0 <= i < j < |listed| ==> listed[i].0 != listed[j].0
        decreases |rest|
      {
        var id :| id in rest;
        ghost var before := listed;
        if f(rows[id]) {
          listed := listed + [(id, rows[id])];
          assert listed[|before|] == (id, rows[id]);
        }
        rest := rest - {id};
        forall x | x in rows && x !in rest && f(rows[x])
          ensures exists i :: 0 <= i < |listed| && listed[i] == (x, rows[x])
        {
          if x != id {
            var i :| 0 <= i < |before| && before[i] == (x, rows[x]);
            assert listed[i] == (x, rows[x]);
          }
        }
      }
    }

    /** Creates a row under an identifier never used before. */
    method Create(row: T) returns (ok: bool, id: string)
      requires Valid()
      modifies this
      ensures Valid() && log == old(log) + [rows]
      ensures id !in old(minted) && id != "" && minted == old(minted) + {id}
      ensures rows == old(rows) || rows == old(rows)[id := row]
      ensures ok ==> rows == old(rows)[id := row]
      ensures failures == old(failures) + if ok then 0 else 1
    {
      hide Traced, OneCall;
      ghost var before := rows;
      NoEffect(before);
      id := FreshId(minted);
      minted := minted + {id};
      ok := *;
      if ok {
        Called(before, Insert(id, row));
        rows := rows[id := row];
        ok := *;
      }
      failures := failures + if ok then 0 else 1;
      TracedMore(start, log, before, rows);
      log := log + [rows];
    }

    /** Fetches a row; a missing row is an error of its own. */
    method Get(id: string) returns (ok: bool, row: Option<T>)
      modifies this`failures
      ensures ok ==> id in rows && row == Some(rows[id])
      ensures failures >= old(failures) && (ok ==> failures == old(failures))
      ensures failures == old(failures) ==> ok || id !in rows
    {
      ok, row := *, None;
      if !ok {
        failures := failures + 1;
      } else if id in rows {
        row := Some(rows[id]);
      } else {
        ok := false;
      }
    }

    /** Deletes a row; a missing row is an error that the answer may tell from others. */
    method Delete(id: string) returns (ok: bool, missing: bool)
      requires Valid()
      modifies this
      ensures Valid() && minted == old(minted) && log == old(log) + [rows]
      ensures rows == old(rows) || rows == old(rows) - {id}
      ensures ok ==> id in old(rows) && rows == old(rows) - {id}
      ensures missing ==> !ok && id !in old(rows) && rows == old(rows)
      ensures failures == old(failures) + if ok || missing then 0 else 1
    {
      hide Traced, OneCall;
      ghost var before := rows;
      NoEffect(before);
      ok, missing := *, false;
      if ok {
        if id in rows {
          Called(before, Remove(id));
          rows := rows - {id};
          ok := *;
        } else {
          ok, missing := false, true;
        }
      }
      failures := failures + if ok || missing then 0 else 1;
      TracedMore(start, log, before, rows);
      log := log + [rows];
    }

    /** Patches a row. */
    method Patch(id: string, change: T -> T) returns (ok: bool)
      requires Valid()
      modifies this
      ensures Valid() && minted == old(minted) && log == old(log) + [rows]
      ensures rows == old(rows) || (id in old(rows) && rows == old(rows)[id := change(old(rows)[id])])
      ensures ok ==> id in old(rows) && rows == old(rows)[id := change(old(rows)[id])]
      ensures failures >= old(failures) && (ok ==> failures == old(failures))
      ensures failures == old(failures) ==> ok || id !in old(rows)
    {
      hide Traced, OneCall;
      ghost var before := rows;
      NoEffect(before);
      ok := *;
      if !ok {
        failures := failures + 1;
      } else if id in rows {
        Called(before, Change(id, change));
        rows := rows[id := change(rows[id])];
        ok := *;
        failures := failures + if ok then 0 else 1;
      } else {
        ok := false;
      }
      TracedMore(start, log, before, rows);
      log := log + [rows];
    }
  }

  method FreshId(used: set<string>) returns (id: string)
    ensures id !in used && id != ""
  {
    var rest := used;
    var longest := 0;
    while rest != {}
      invariant rest <= used && longest >= 0
      invariant forall x :: x in used && x !in rest ==> |x| <= longest
      decreases |rest|
    {
      var x :| x in rest;
      if |x| > longest {
        longest := |x|;
      }
      rest := rest - {x};
    }
    id := seq(longest + 1, _ => 'x');
  }
}
