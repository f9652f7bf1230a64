/** Schema migrations (src/store/db.ts). A version is its position in the list, counted
    from 1; a migration may throw, which rolls the transaction back. */
module Migrations {
  import opened Wrappers

  type Migration<!S> = S -> Option<S>

  /** `applied` is the table of versions in the order in which they were inserted. */
  datatype Db<S> = Db(schema: S, applied: seq<nat>)

  predicate IsNewer<S>(db: Db<S>, length: nat) {
    exists k :: 0 <= k < |db.applied| && db.applied[k] > length
  }

  function ApplyFrom<S>(db: Db<S>, list: seq<Migration<S>>, i: nat): Result<Db<S>>
    requires i <= |list|
    decreases |list| - i
  {
    if i == |list| then Success(db)
    else if i + 1 in db.applied then ApplyFrom(db, list, i + 1)
    else
      var next := list[i](db.schema);
      if next.None? then Failure(INTERNAL_ERROR)
      else ApplyFrom(Db(next.value, db.applied + [i + 1]), list, i + 1)
  }

  /** One transaction: the database that is committed, or why nothing is. */
  function Migrate<S>(db: Db<S>, list: seq<Migration<S>>): Result<Db<S>> {
    if IsNewer(db, |list|) then Failure(INTERNAL_ERROR) else ApplyFrom(db, list, 0)
  }

  /** An attempt that threw: because the database was locked, at some time, or otherwise. */
  datatype Attempt = Locked(at: int) | Broken(code: Code)

  datatype Opened = Migrated(result: Result<()>) | Threw(attempt: nat)

  predicate Retries(a: Attempt, deadline: int) {
    a.Locked? && a.at < deadline
  }

  predicate FirstToStop(failed: seq<Attempt>, deadline: int, n: nat) {
    n < |failed| && !Retries(failed[n], deadline) && forall k :: 0 <= k < n ==> Retries(failed[k], deadline)
  }

  const TIMEOUT := 15000

  function Min(a: int, b: int): int {
    if a <= b then a else b
  }

  function Pow2(n: nat): nat {
    if n == 0 then 1 else 2 * Pow2(n - 1)
  }

  /** How long the loop sleeps behind the attempt number `n` at time `now`. */
  function Pause(n: nat, pid: nat, now: int, deadline: int): int {
    Min(Min(50 * Pow2(n), 1000) + pid % 47, if deadline - now > 1 then deadline - now else 1)
  }

  /** The times of the attempts that found the database locked respect the pauses. */
  predicate Paced(times: seq<int>, start: int, pid: nat) {
    && (times != [] ==> start <= times[0])
    && (forall k :: 0 <= k < |times| - 1 ==> times[k] + Pause(k, pid, times[k], start + TIMEOUT) <= times[k + 1])
  }

  /** The sum of the first pauses without the offset of the process. */
  function Slept(n: nat): nat {
    if n == 0 then 0 else Slept(n - 1) + Min(50 * Pow2(n - 1), 1000)
  }

  lemma {:induction false} SleptBefore(times: seq<int>, start: int, pid: nat, k: nat)
    requires Paced(times, start, pid) && k < |times| && forall i :: 0 <= i <= k ==> times[i] < start + TIMEOUT
    ensures start + Slept(k) <= times[k]
  {
    if k > 0 {
      SleptBefore(times, start, pid, k - 1);
      assert times[k - 1] + Pause(k - 1, pid, times[k - 1], start + TIMEOUT) <= times[k];
    }
  }

  lemma NineteenPauses()
    ensures Slept(19) >= TIMEOUT
  {
    assert Slept(5) == 1550;
    LongPauses(5, 14);
  }

  lemma {:induction false} LongPauses(n: nat, m: nat)
    requires n >= 5
    ensures Slept(n + m) >= Slept(n) + 1000 * m
  {
    if m > 0 {
      LongPauses(n, m - 1);
      PowersGrow(n + m - 1);
    }
  }

  lemma {:induction false} PowersGrow(n: nat)
    requires n >= 5
    ensures Pow2(n) >= 32
  {
    if n == 5 {
      assert Pow2(5) == 32;
    } else {
      PowersGrow(n - 1);
    }
  }

  /** The pauses bound the work: at most nineteen attempts can find the database locked before
      the deadline, so a twentieth ends the loop. */
  lemma AtMostNineteenRetries(times: seq<int>, start: int, pid: nat)
    requires Paced(times, start, pid) && forall k :: 0 <= k < |times| ==> times[k] < start + TIMEOUT
    ensures |times| <= 19
  {
    if |times| > 19 {
      SleptBefore(times, start, pid, 19);
      NineteenPauses();
    }
  }

  class Database<S> {
    var schema: S
    var applied: seq<nat>

    function Value(): Db<S>
      reads this
    {
      Db(schema, applied)
    }

    constructor (schema: S)
      ensures Value() == Db(schema, [])
    {
      this.schema, applied := schema, [];
    }

    /** The transaction works on its own view and is committed as a whole. */
    method RunMigrations(list: seq<Migration<S>>) returns (done: Result<()>)
      modifies this
      ensures match Migrate(old(Value()), list)
              case Success(db) => done.Success? && Value() == db
              case Failure(code) => done == Failure(code) && Value() == old(Value())
    {
      if exists k :: 0 <= k < |applied| && applied[k] > |list| {
        return Failure(INTERNAL_ERROR);
      }
      var view, versions: seq<nat> := schema, applied;
      for i := 0 to |list|
        invariant ApplyFrom(Db(view, versions), list, i) == ApplyFrom(Value(), list, 0)
      {
        if i + 1 in versions {
          continue;
        }
        var next := list[i](view);
        if next.None? {
          return Failure(INTERNAL_ERROR);
        }
        view := next.value;
        versions := versions + [i + 1];
      }
      schema, applied := view, versions;
      done := Success(());
    }

    /** `withBusyRetry`: `failed` are the attempts that threw, in order. The loop goes on behind
        an attempt that found the database locked before the deadline; any other ends it. */
    method RunWithRetry(list: seq<Migration<S>>, failed: seq<Attempt>, deadline: int) returns (done: Opened)
      modifies this
      ensures done.Migrated? <==> forall k :: 0 <= k < |failed| ==> Retries(failed[k], deadline)
      ensures done.Threw? ==> Value() == old(Value()) && FirstToStop(failed, deadline, done.attempt)
      ensures done.Migrated? ==>
        match Migrate(old(Value()), list)
        case Success(db) => done.result.Success? && Value() == db
        case Failure(code) => done.result == Failure(code) && Value() == old(Value())
    {
      var attempt := 0;
      while attempt < |failed|
        invariant 0 <= attempt <= |failed|
        invariant forall k :: 0 <= k < attempt ==> Retries(failed[k], deadline)
        invariant Value() == old(Value())
      {
        if !failed[attempt].Locked? || failed[attempt].at >= deadline {
          return Threw(attempt);
        }
        attempt := attempt + 1;
      }
      var result := RunMigrations(list);
      done := Migrated(result);
    }
  }

  // ------------------------------------------------------------- all runs of openers

  /** A process opens the store with a program that knows the first `length` migrations; a
      crash or a lock that is never granted leaves the database as it was. */
  datatype Event = Opens(length: nat) | CrashesIn(length: nat) | GivesUp

  function Step<S>(db: Db<S>, list: seq<Migration<S>>, e: Event): Db<S> {
    if e.Opens? && e.length <= |list| then
      match Migrate(db, list[..e.length])
      case Success(next) => next
      case Failure(_) => db
    else db
  }

  function Run<S>(db: Db<S>, list: seq<Migration<S>>, es: seq<Event>): Db<S>
    decreases |es|
  {
    if es == [] then db else Run(Step(db, list, es[0]), list, es[1..])
  }

  /** The schema after the first `k` migrations, each applied once, in order. */
  function Fold<S>(start: S, list: seq<Migration<S>>, k: nat): Option<S>
    requires k <= |list|
  {
    if k == 0 then Some(start)
    else
      var before := Fold(start, list, k - 1);
      if before.None? then None else list[k - 1](before.value)
  }

  function Versions(k: nat): (vs: seq<nat>)
    ensures |vs| == k && forall i :: 0 <= i < k ==> vs[i] == i + 1
  {
    if k == 0 then [] else Versions(k - 1) + [k]
  }

  /** Exactly the first `k` migrations took effect, once each and in list order. */
  ghost predicate IsAt<S>(db: Db<S>, start: S, list: seq<Migration<S>>, k: nat) {
    k <= |list| && db.applied == Versions(k) && Fold(start, list, k) == Some(db.schema)
  }

  lemma {:induction false} FoldOfPrefix<S>(start: S, list: seq<Migration<S>>, n: nat, k: nat)
    requires k <= n <= |list|
    ensures Fold(start, list[..n], k) == Fold(start, list, k)
  {
    if k > 0 {
      FoldOfPrefix(start, list, n, k - 1);
    }
  }

  lemma {:induction false} FoldFails<S>(start: S, list: seq<Migration<S>>, k: nat, n: nat)
    requires k <= n <= |list| && Fold(start, list, k).None?
    ensures Fold(start, list, n).None?
  {
    if k < n {
      FoldFails(start, list, k, n - 1);
    }
  }

  /** From version `k`, the loop skips what is done and then folds the rest. */
  lemma {:induction false} LoopFolds<S>(db: Db<S>, start: S, list: seq<Migration<S>>, k: nat, i: nat)
    requires IsAt(db, start, list, k) && i <= |list|
    requires i <= k
    ensures match ApplyFrom(db, list, i)
            case Success(next) => IsAt(next, start, list, |list|)
            case Failure(_) => Fold(start, list, |list|).None?
    decreases |list| - i
  {
    if i < |list| {
      if i < k {
        assert db.applied[i] == i + 1;
        LoopFolds(db, start, list, k, i + 1);
      } else {
        assert i + 1 !in db.applied;
        var next := list[i](db.schema);
        if next.None? {
          FoldFails(start, list, i + 1, |list|);
        } else {
          LoopFolds(Db(next.value, db.applied + [i + 1]), start, list, k + 1, i + 1);
        }
      }
    }
  }

  /** What one opener does to a database at version `k`: a program that knows fewer
      migrations is refused; otherwise the database ends at exactly the program's version,
      unless one of the missing migrations throws; refused, nothing changes. */
  lemma OpenerOutcome<S>(db: Db<S>, start: S, list: seq<Migration<S>>, k: nat, n: nat)
    requires IsAt(db, start, list, k) && n <= |list|
    ensures Migrate(db, list[..n]).Success? <==> k <= n && Fold(start, list, n).Some?
    ensures Migrate(db, list[..n]).Success? ==> IsAt(Migrate(db, list[..n]).value, start, list, n)
    ensures Migrate(db, list[..n]).Failure? ==> Step(db, list, Opens(n)) == db
  {
    if k > n {
      assert db.applied[k - 1] == k;
    } else {
      FoldOfPrefix(start, list, n, k);
      FoldOfPrefix(start, list, n, n);
      LoopFolds(db, start, list[..n], k, 0);
    }
  }

  /** The newest version of the openers that got through. */
  function Reached<S>(start: S, list: seq<Migration<S>>, es: seq<Event>, k: nat): nat {
    if es == [] then k
    else
      var e := es[0];
      if e.Opens? && k <= e.length <= |list| && Fold(start, list, e.length).Some? then Reached(start, list, es[1..], e.length)
      else Reached(start, list, es[1..], k)
  }

  lemma {:induction false} RunFrom<S>(db: Db<S>, start: S, list: seq<Migration<S>>, k: nat, es: seq<Event>)
    requires IsAt(db, start, list, k)
    ensures IsAt(Run(db, list, es), start, list, Reached(start, list, es, k))
    decreases |es|
  {
    if es != [] {
      var e := es[0];
      if e.Opens? && e.length <= |list| {
        OpenerOutcome(db, start, list, k, e.length);
        if k <= e.length && Fold(start, list, e.length).Some? {
          RunFrom(Step(db, list, e), start, list, e.length, es[1..]);
        } else {
          RunFrom(db, start, list, k, es[1..]);
        }
      } else {
        RunFrom(db, start, list, k, es[1..]);
      }
    }
  }

  /** For any number of openers in any order, of any program versions, with crashes at any
      point: every migration up to the version reached took effect exactly once and in list
      order, so the schema is one fold of the list; an upgraded database and a fresh one at
      the same version are equal. */
  lemma EveryRunIsOneFold<S>(start: S, list: seq<Migration<S>>, es: seq<Event>, others: seq<Event>)
    ensures IsAt(Run(Db(start, []), list, es), start, list, Reached(start, list, es, 0))
    ensures Reached(start, list, es, 0) == Reached(start, list, others, 0) ==> Run(Db(start, []), list, es) == Run(Db(start, []), list, others)
  {
    RunFrom(Db(start, []), start, list, 0, es);
    RunFrom(Db(start, []), start, list, 0, others);
  }
}
