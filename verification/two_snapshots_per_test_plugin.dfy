/**
 * The two-snapshot plugin: a base plugin plus two snapshot pools, one for the
 * running test and one for the session. It takes a snapshot when a test starts and
 * when it ends, and hands every pooled snapshot to the idle-task scheduler for
 * saving or discarding once the retention rules decide.
 *
 * The pools sit in an outer mapping keyed "fromTest" and "fromSession", exactly as
 * the plugin's `snapshots` object does. Dispatching a snapshot deletes the key of
 * the OUTER mapping that has the snapshot's name, so pools keep their entries, and a
 * snapshot literally named after a pool removes that pool; using a removed pool
 * raises a TypeError, which makes the hook fail.
 */
module TwoSnapshots {
  import opened Wrappers
  import opened Plugin

  /** One snapshot pool: snapshot name to handle. */
  type Pool = map<string, Handle>

  /** The plugin's `snapshots` object: pool name to pool. */
  type Pools = map<string, Pool>

  const FromTest := "fromTest"
  const FromSession := "fromSession"
  const BeforeEachSnapshot := "beforeEach"
  const AfterEachSnapshot := "afterEach"

  /**
   * A callback handed to `requestIdleCallback`. A `Save` carries the test summary
   * that was current when the save was scheduled (it chooses the artifact's path).
   */
  datatype Task =
    | Save(name: string, handle: Handle, summary: Option<TestSummary>)
    | Discard(name: string, handle: Handle)

  /** Whether a dispatch saves (with the summary it captured) or discards. */
  datatype Disposition = Saving(summary: Option<TestSummary>) | Discarding

  /** The errors a hook of this plugin can reject with. */
  datatype HookError =
    | MissingArtifact              // the external-artifact event carried no artifact
    | UndefinedPool(where: string) // a TypeError: the named pool was deleted

  function TaskFor(d: Disposition, name: string, h: Handle): Task
  {
    match d
    case Saving(s) => Save(name, h, s)
    case Discarding => Task.Discard(name, h)
  }

  /** The pool a new snapshot goes to: the test's while a test is running, else the session's. */
  function PoolFor(summary: Option<TestSummary>): (where: string)
    ensures where == FromTest <==> summary.Some?
    ensures where == FromSession <==> summary.None?
  {
    if summary.Some? then FromTest else FromSession
  }

  /**
   * The outer mapping after the pool `where` was dispatched: every key that names a
   * snapshot of that pool is gone, and nothing else changes. In particular the
   * dispatched pool itself survives, with all its entries, unless it held a
   * snapshot named after it.
   */
  function Drained(s: Pools, where: string): (s': Pools)
    requires where in s
    ensures forall w :: w in s' <==> w in s && w !in s[where]
    ensures forall w :: w in s' ==> s'[w] == s[w]
    ensures where !in s[where] ==> where in s' && s'[where] == s[where]
  {
    s - s[where].Keys
  }

  /**
   * `added` holds one task of disposition `d` for each entry of `pool` named in
   * `names`: each task is the one for its entry, the tasks name exactly `names`, and
   * there are no more tasks than names (so no entry has two).
   */
  ghost predicate DispatchesEntries(added: seq<Task>, pool: Pool, names: set<string>, d: Disposition)
  {
    && names <= pool.Keys
    && Names(added) == names && |added| == |names|
    && (forall i :: 0 <= i < |added| ==> added[i].name in pool && added[i] == TaskFor(d, added[i].name, pool[added[i].name]))
  }

  /** `added` holds exactly one task of disposition `d` per entry of `pool`. */
  ghost predicate Dispatches(added: seq<Task>, pool: Pool, d: Disposition)
  {
    DispatchesEntries(added, pool, pool.Keys, d)
  }

  /** From (s0, q0) to (s1, q1), the pool `where` was dispatched with disposition `d`. */
  ghost predicate Dispatched(s0: Pools, q0: seq<Task>, where: string, d: Disposition, s1: Pools, q1: seq<Task>)
  {
    && where in s0
    && s1 == Drained(s0, where)
    && |q0| <= |q1| && q1[..|q0|] == q0
    && Dispatches(q1[|q0|..], s0[where], d)
  }

  /** A dispatch of `where` succeeds exactly when that pool exists; otherwise it changes nothing. */
  ghost predicate DispatchResult(s0: Pools, q0: seq<Task>, where: string, d: Disposition,
                                 s1: Pools, q1: seq<Task>, r: Outcome<HookError>)
  {
    if where in s0 then r == Pass && Dispatched(s0, q0, where, d, s1, q1)
    else r == Fail(UndefinedPool(where)) && s1 == s0 && q1 == q0
  }

  /** A session flush fails only when it has something to do and the session pool is gone. */
  predicate FlushFails(dec: SessionDecision, s: Pools)
  {
    dec != Deferred && FromSession !in s
  }

  /** A successful session flush under decision `dec`: save, discard, or leave the pool pending. */
  ghost predicate Flushed(dec: SessionDecision, summary: Option<TestSummary>, s0: Pools, q0: seq<Task>, s1: Pools, q1: seq<Task>)
  {
    match dec
    case Keep => Dispatched(s0, q0, FromSession, Saving(summary), s1, q1)
    case Discard => Dispatched(s0, q0, FromSession, Discarding, s1, q1)
    case Deferred => s1 == s0 && q1 == q0
  }

  /**
   * The outer mapping after `h` was registered as `name` into the pool `where`: that
   * pool maps `name` to `h` (replacing an earlier snapshot of that name), keeps its
   * other entries, and every other pool is untouched.
   */
  function Registered(s: Pools, where: string, name: string, h: Handle): (s': Pools)
    requires where in s
    ensures s'.Keys == s.Keys
    ensures s'[where].Keys == s[where].Keys + {name} && s'[where][name] == h
    ensures forall n :: n in s[where] && n != name ==> s'[where][n] == s[where][n]
    ensures forall w :: w in s && w != where ==> s'[w] == s[w]
  {
    s[where := s[where][name := h]]
  }

  /** The outer mapping after a successful session flush under decision `dec`. */
  function AfterFlush(dec: SessionDecision, s: Pools): Pools
    requires !FlushFails(dec, s)
  {
    if dec == Deferred then s else Drained(s, FromSession)
  }

  /** Registering `h` as `name` into `where` succeeds exactly when that pool exists. */
  ghost predicate RegisterResult(s0: Pools, t0: set<Handle>, where: string, name: string, h: Handle,
                                 s1: Pools, t1: set<Handle>, r: Outcome<HookError>)
  {
    if where in s0 then r == Pass && s1 == Registered(s0, where, name, h) && t1 == t0 + {h}
    else r == Fail(UndefinedPool(where)) && s1 == s0 && t1 == t0
  }

  /** An automatic snapshot registers only when `on`; otherwise nothing changes. */
  ghost predicate AutoSnapshotResult(on: bool, s0: Pools, t0: set<Handle>, where: string, name: string, h: Handle,
                                     s1: Pools, t1: set<Handle>, r: Outcome<HookError>)
  {
    if on then RegisterResult(s0, t0, where, name, h, s1, t1, r)
    else r == Pass && s1 == s0 && t1 == t0
  }

  /**
   * The test pool `FromTest` of `s0` was settled: when `keep`, an "afterEach" snapshot
   * `h` joined it (if automatic snapshots are `on`) and every entry was then saved with
   * summary `s`; otherwise every entry was discarded.
   */
  ghost predicate TestSettled(s: TestSummary, h: Handle, keep: bool, on: bool,
                              s0: Pools, q0: seq<Task>, t0: set<Handle>,
                              s2: Pools, q2: seq<Task>, t2: set<Handle>)
    requires FromTest in s0
  {
    var s1 := if on then Registered(s0, FromTest, AfterEachSnapshot, h) else s0;
    && t2 == (if on then t0 + {h} else t0)
    && Dispatched(s1, q0, FromTest, if keep then Saving(Some(s)) else Discarding, s2, q2)
  }

  /**
   * The session flush under decision `dec` from (s0, q0), saving with `summary`: it
   * fails, changing nothing, exactly when it has something to do and the session
   * pool is gone.
   */
  ghost predicate FlushOutcome(dec: SessionDecision, summary: Option<TestSummary>, s0: Pools, q0: seq<Task>,
                               s1: Pools, q1: seq<Task>, r: Outcome<HookError>)
  {
    if FlushFails(dec, s0) then r == Fail(UndefinedPool(FromSession)) && s1 == s0 && q1 == q0
    else r == Pass && Flushed(dec, summary, s0, q0, s1, q1)
  }

  /** Every handle held by a pool is in `t`. */
  ghost predicate AllEverTracked(s: Pools, t: set<Handle>)
  {
    forall w, n :: w in s && n in s[w] ==> s[w][n] in t
  }

  /** Every name of a task in `ts`. */
  function Names(ts: seq<Task>): set<string>
  {
    if ts == [] then {} else {ts[0].name} + Names(ts[1..])
  }

  lemma {:induction false} NamesAt(ts: seq<Task>, n: string)
    ensures n in Names(ts) <==> exists i :: 0 <= i < |ts| && ts[i].name == n
  {
    if ts != [] {
      NamesAt(ts[1..], n);
      if n in Names(ts[1..]) {
        var i :| 0 <= i < |ts[1..]| && ts[1..][i].name == n;
        assert ts[i + 1].name == n;
      }
      forall i | 1 <= i < |ts| && ts[i].name == n
        ensures n in Names(ts[1..])
      {
        assert ts[1..][i - 1].name == n;
      }
    }
  }

  lemma {:induction false} NamesAppend(ts: seq<Task>, t: Task)
    ensures Names(ts + [t]) == Names(ts) + {t.name}
  {
    if ts != [] {
      assert (ts + [t])[1..] == ts[1..] + [t];
      NamesAppend(ts[1..], t);
    }
  }

  /** There are never more names than tasks. */
  lemma {:induction false} NamesBound(ts: seq<Task>)
    ensures |Names(ts)| <= |ts|
  {
    if ts != [] {
      NamesBound(ts[1..]);
    }
  }

  /** Tasks with as many names as tasks have pairwise distinct names. */
  lemma {:induction false} NamesCountDistinct(ts: seq<Task>)
    requires |Names(ts)| == |ts|
    ensures forall i, j :: 0 <= i < j < |ts| ==> ts[i].name != ts[j].name
  {
    if ts != [] {
      var rest := ts[1..];
      NamesBound(rest);
      assert ts[0].name !in Names(rest) && |Names(rest)| == |rest|;
      NamesCountDistinct(rest);
      forall i, j | 0 <= i < j < |ts|
        ensures ts[i].name != ts[j].name
      {
        if i == 0 {
          NamesAt(rest, ts[j].name);
          assert rest[j - 1] == ts[j];
        } else {
          assert rest[i - 1] == ts[i] && rest[j - 1] == ts[j];
        }
      }
    }
  }

  /**
   * Part way through dispatching the pool `where` of `s0`: the names still in `todo`
   * are left, every other entry of the pool has had its key removed from the outer
   * mapping and its task queued after `q0`.
   */
  ghost predicate DispatchInProgress(s0: Pools, q0: seq<Task>, where: string, d: Disposition,
                                     todo: set<string>, s: Pools, q: seq<Task>)
    requires where in s0
  {
    var pool := s0[where];
    && todo <= pool.Keys
    && s == s0 - (pool.Keys - todo)
    && |q0| <= |q| && q[..|q0|] == q0
    && DispatchesEntries(q[|q0|..], pool, pool.Keys - todo, d)
  }

  lemma DispatchStart(s0: Pools, q0: seq<Task>, where: string, d: Disposition)
    requires where in s0
    ensures DispatchInProgress(s0, q0, where, d, s0[where].Keys, s0, q0)
  {
    assert s0 - {} == s0;
  }

  /** One loop step of a dispatch: one more entry's key removed and its task queued. */
  lemma DispatchOneMore(s0: Pools, q0: seq<Task>, where: string, d: Disposition,
                        todo: set<string>, s: Pools, q: seq<Task>, name: string)
    requires where in s0 && DispatchInProgress(s0, q0, where, d, todo, s, q)
    requires name in todo
    ensures DispatchInProgress(s0, q0, where, d, todo - {name}, s - {name}, q + [TaskFor(d, name, s0[where][name])])
  {
    var pool := s0[where];
    var done := pool.Keys - todo;
    var added := q[|q0|..];
    var t := TaskFor(d, name, pool[name]);
    var added' := added + [t];
    assert pool.Keys - (todo - {name}) == done + {name};
    assert (s0 - done) - {name} == s0 - (done + {name});
    assert (q + [t])[|q0|..] == added';
    assert |done + {name}| == |done| + 1;
    NamesAppend(added, t);
    forall i | 0 <= i < |added'|
      ensures added'[i].name in pool && added'[i] == TaskFor(d, added'[i].name, pool[added'[i].name])
    {
      if i < |added| {
        assert added'[i] == added[i];
      }
    }
  }

  /** A dispatch with nothing left to do is complete, and every handle still pooled was passed to `trackArtifact` at some time. */
  lemma DispatchFinish(s0: Pools, q0: seq<Task>, where: string, d: Disposition, s: Pools, q: seq<Task>, t: set<Handle>)
    requires where in s0 && DispatchInProgress(s0, q0, where, d, {}, s, q)
    requires AllEverTracked(s0, t)
    ensures Dispatched(s0, q0, where, d, s, q) && AllEverTracked(s, t)
  {
    assert s0[where].Keys - {} == s0[where].Keys;
  }

  /**
   * A dispatch corresponds one to one with the pool: every entry of the pool gets
   * its task, and no two tasks are for the same entry.
   */
  lemma {:induction false} DispatchCoversPool(added: seq<Task>, pool: Pool, d: Disposition)
    requires Dispatches(added, pool, d)
    ensures forall n :: n in pool ==> TaskFor(d, n, pool[n]) in added
    ensures forall i, j :: 0 <= i < j < |added| ==> added[i].name != added[j].name
  {
    forall n | n in pool
      ensures TaskFor(d, n, pool[n]) in added
    {
      NamesAt(added, n);
      var i :| 0 <= i < |added| && added[i].name == n;
      assert added[i] == TaskFor(d, n, pool[n]);
    }
    NamesCountDistinct(added);
  }

  /**
   * The outer mapping after dispatching the pool `where` as the loop evidently
   * means to, deleting each name from the pool it bound at its start: that pool is
   * emptied and every other pool is left alone.
   */
  function DrainedIntended(s: Pools, where: string): (s': Pools)
    requires where in s
    ensures s'.Keys == s.Keys && s'[where] == map[]
    ensures forall w :: w in s && w != where ==> s'[w] == s[w]
  {
    s[where := map[]]
  }

  /** Like `Dispatched`, but with the pool emptied as `DrainedIntended` does. */
  ghost predicate DispatchedIntended(s0: Pools, q0: seq<Task>, where: string, d: Disposition, s1: Pools, q1: seq<Task>)
  {
    && where in s0
    && s1 == DrainedIntended(s0, where)
    && |q0| <= |q1| && q1[..|q0|] == q0
    && Dispatches(q1[|q0|..], s0[where], d)
  }

  /**
   * With the intended delete, dispatching the same pool a second time queues
   * nothing and changes nothing, so no handle is handed over twice.
   */
  lemma {:induction false} IntendedDispatchOnce(s0: Pools, q0: seq<Task>, where: string, d: Disposition,
                                                s1: Pools, q1: seq<Task>, d': Disposition, s2: Pools, q2: seq<Task>)
    requires DispatchedIntended(s0, q0, where, d, s1, q1)
    requires DispatchedIntended(s1, q1, where, d', s2, q2)
    ensures q2 == q1 && s2 == s1
  {
    assert s1[where].Keys == {};
    assert q2 == q2[..|q1|] + q2[|q1|..];
  }

  /**
   * As written, a pool with no snapshot named after a pool is left intact by a
   * dispatch, so dispatching it a second time hands every one of its handles over
   * again: once with disposition `d` and once with `d'`.
   */
  lemma {:induction false} AsWrittenDispatchTwice(s0: Pools, q0: seq<Task>, where: string, d: Disposition,
                                                  s1: Pools, q1: seq<Task>, d': Disposition, s2: Pools, q2: seq<Task>)
    requires Dispatched(s0, q0, where, d, s1, q1)
    requires Dispatched(s1, q1, where, d', s2, q2)
    requires forall n :: n in s0[where] ==> n !in s0
    ensures s1 == s0 && s2 == s0
    ensures forall n :: n in s0[where] ==> TaskFor(d, n, s0[where][n]) in q1[|q0|..]
    ensures forall n :: n in s0[where] ==> TaskFor(d', n, s0[where][n]) in q2[|q1|..]
  {
    assert s1 == s0;
    DispatchCoversPool(q1[|q0|..], s0[where], d);
    DispatchCoversPool(q2[|q1|..], s0[where], d');
  }

  class TwoSnapshotsPerTestPlugin {
    /** The base plugin this one extends. */
    const base: ArtifactPlugin
    var shouldTakeAutomaticSnapshots: bool
    var snapshots: Pools
    /** The callbacks handed to `requestIdleCallback`, in order. */
    var pending: seq<Task>
    /**
     * Every handle ever passed to `trackArtifact`. The idle callbacks that untrack
     * handles are not run by the model, so this set only grows.
     */
    ghost var everTracked: set<Handle>

    /** Every pooled handle was passed to `trackArtifact` at some time. */
    ghost predicate Valid()
      reads this
    {
      AllEverTracked(snapshots, everTracked)
    }

    constructor ()
      ensures Valid() && fresh(base)
      ensures !base.enabled && !base.keepOnlyFailedTestsArtifacts && base.priority == DefaultPriority
      ensures base.disableReason == "" && !base.hasFailingTests && !base.finishedTests
      ensures base.context == EmptyContext && !base.terminated && base.warnings == []
      ensures shouldTakeAutomaticSnapshots
      ensures snapshots == map[FromTest := map[], FromSession := map[]]
      ensures pending == [] && everTracked == {}
    {
      base := new ArtifactPlugin();
      shouldTakeAutomaticSnapshots := true;
      snapshots := map[FromTest := map[], FromSession := map[]];
      pending := [];
      everTracked := {};
    }

    /** Puts `h` into the pool of the current scope under `name`, replacing any entry of that name. */
    method RegisterSnapshot(name: string, h: Handle) returns (r: Outcome<HookError>)
      requires Valid()
      modifies this`snapshots, this`everTracked
      ensures Valid()
      ensures RegisterResult(old(snapshots), old(everTracked), PoolFor(base.context.testSummary), name, h, snapshots, everTracked, r)
    {
      var where := PoolFor(base.context.testSummary);
      if where !in snapshots {
        return Fail(UndefinedPool(where));
      }
      snapshots := Registered(snapshots, where, name, h);
      everTracked := everTracked + {h};
      r := Pass;
    }

    /** Takes a snapshot with the fresh handle `h` (the artifact factory's result) and registers it. */
    method TakeSnapshot(name: string, h: Handle) returns (r: Outcome<HookError>)
      requires Valid()
      modifies this`snapshots, this`everTracked
      ensures Valid()
      ensures RegisterResult(old(snapshots), old(everTracked), PoolFor(base.context.testSummary), name, h, snapshots, everTracked, r)
    {
      r := RegisterSnapshot(name, h);
    }

    method TakeAutomaticSnapshot(name: string, h: Handle) returns (r: Outcome<HookError>)
      requires Valid()
      modifies this`snapshots, this`everTracked
      ensures Valid()
      ensures AutoSnapshotResult(base.enabled && shouldTakeAutomaticSnapshots, old(snapshots), old(everTracked),
                                 PoolFor(base.context.testSummary), name, h, snapshots, everTracked, r)
    {
      if base.enabled && shouldTakeAutomaticSnapshots {
        r := TakeSnapshot(name, h);
      } else {
        r := Pass;
      }
    }

    /** Schedules a save of every entry of the pool `where`, each with the current test summary. */
    method StartSavingSnapshots(where: string) returns (r: Outcome<HookError>)
      requires Valid()
      modifies this`snapshots, this`pending
      ensures Valid()
      ensures DispatchResult(old(snapshots), old(pending), where, Saving(base.context.testSummary), snapshots, pending, r)
    {
      var summary := base.context.testSummary;
      if where !in snapshots {
        return Fail(UndefinedPool(where));
      }
      var pool := snapshots[where];
      var todo := pool.Keys;
      DispatchStart(snapshots, pending, where, Saving(summary));
      while todo != {}
        invariant DispatchInProgress(old(snapshots), old(pending), where, Saving(summary), todo, snapshots, pending)
        decreases todo
      {
        var name :| name in todo;
        DispatchOneMore(old(snapshots), old(pending), where, Saving(summary), todo, snapshots, pending, name);
        snapshots := snapshots - {name};
        pending := pending + [Save(name, pool[name], summary)];
        todo := todo - {name};
      }
      DispatchFinish(old(snapshots), old(pending), where, Saving(summary), snapshots, pending, everTracked);
      r := Pass;
    }

    /** Schedules a discard of every entry of the pool `where`. */
    method StartDiscardingSnapshots(where: string) returns (r: Outcome<HookError>)
      requires Valid()
      modifies this`snapshots, this`pending
      ensures Valid()
      ensures DispatchResult(old(snapshots), old(pending), where, Discarding, snapshots, pending, r)
    {
      if where !in snapshots {
        return Fail(UndefinedPool(where));
      }
      var pool := snapshots[where];
      var todo := pool.Keys;
      DispatchStart(snapshots, pending, where, Discarding);
      while todo != {}
        invariant DispatchInProgress(old(snapshots), old(pending), where, Discarding, todo, snapshots, pending)
        decreases todo
      {
        var name :| name in todo;
        DispatchOneMore(old(snapshots), old(pending), where, Discarding, todo, snapshots, pending, name);
        snapshots := snapshots - {name};
        pending := pending + [Task.Discard(name, pool[name])];
        todo := todo - {name};
      }
      DispatchFinish(old(snapshots), old(pending), where, Discarding, snapshots, pending, everTracked);
      r := Pass;
    }

    /**
     * Flushes the session pool while no test is current, then makes `s` the current
     * test and takes the "beforeEach" snapshot (with the fresh handle `h`) into the test pool.
     */
    method OnBeforeEach(s: TestSummary, h: Handle) returns (r: Outcome<HookError>)
      requires Valid()
      modifies this`snapshots, this`pending, this`everTracked, base`context
      ensures Valid()
      ensures base.terminated ==> r == Pass && unchanged(this) && base.context == old(base.context)
      ensures !base.terminated && FlushFails(base.ShouldKeepArtifactOfSession(), old(snapshots)) ==>
                && r == Fail(UndefinedPool(FromSession))
                && snapshots == old(snapshots) && pending == old(pending) && everTracked == old(everTracked)
                && base.context == old(base.context).(testSummary := None)
      ensures !base.terminated && !FlushFails(base.ShouldKeepArtifactOfSession(), old(snapshots)) ==>
                var dec := base.ShouldKeepArtifactOfSession();
                && base.context == old(base.context).(testSummary := Some(s))
                && Flushed(dec, None, old(snapshots), old(pending), AfterFlush(dec, old(snapshots)), pending)
                && AutoSnapshotResult(base.enabled && shouldTakeAutomaticSnapshots, AfterFlush(dec, old(snapshots)), old(everTracked),
                                      FromTest, BeforeEachSnapshot, h, snapshots, everTracked, r)
    {
      if base.terminated {
        return Pass;
      }
      base.context := base.context.(testSummary := None);
      r := FlushSessionSnapshots();
      if r.Fail? {
        return;
      }
      base.OnBeforeEach(s);
      r := TakeAutomaticSnapshot(BeforeEachSnapshot, h);
    }

    /**
     * Records the finished test; settles the test pool; then clears the current test
     * and flushes the session pool. `mid` and `midQueue` are the pools and the queue
     * between the settling and the flush.
     */
    method OnAfterEach(s: TestSummary, h: Handle) returns (r: Outcome<HookError>, ghost mid: Pools, ghost midQueue: seq<Task>)
      requires Valid()
      modifies this`snapshots, this`pending, this`everTracked, base`context, base`hasFailingTests
      ensures Valid()
      ensures base.terminated ==> r == Pass && unchanged(this) && base.context == old(base.context)
                                  && base.hasFailingTests == old(base.hasFailingTests)
      ensures !base.terminated ==> base.hasFailingTests == (old(base.hasFailingTests) || s.status == FailedStatus)
      ensures !base.terminated && base.enabled && s.status == FailedStatus ==> base.ShouldKeepArtifactOfSession() == Keep
      ensures !base.terminated && FromTest !in old(snapshots) ==>
                && r == Fail(UndefinedPool(FromTest))
                && snapshots == old(snapshots) && pending == old(pending) && everTracked == old(everTracked)
                && base.context == old(base.context).(testSummary := Some(s))
      ensures !base.terminated && FromTest in old(snapshots) ==>
                var keep := base.ShouldKeepArtifactOfTest(s);
                && base.context == old(base.context).(testSummary := None)
                && TestSettled(s, h, keep, keep && shouldTakeAutomaticSnapshots,
                               old(snapshots), old(pending), old(everTracked), mid, midQueue, everTracked)
                && FlushOutcome(base.ShouldKeepArtifactOfSession(), None, mid, midQueue, snapshots, pending, r)
    {
      mid, midQueue := snapshots, pending;
      if base.terminated {
        return Pass, mid, midQueue;
      }
      base.OnAfterEach(s);
      r := SettleTestSnapshots(s, h);
      if r.Pass? {
        mid, midQueue := snapshots, pending;
        base.context := base.context.(testSummary := None);
        r := FlushSessionSnapshots();
      }
    }

    /**
     * The middle of `OnAfterEach`, while the finished test `s` is current: saves the
     * test pool, after an "afterEach" snapshot with the fresh handle `h`, when the
     * test's artifacts are kept, and discards it otherwise.
     */
    method SettleTestSnapshots(s: TestSummary, h: Handle) returns (r: Outcome<HookError>)
      requires Valid() && base.context.testSummary == Some(s)
      modifies this`snapshots, this`pending, this`everTracked
      ensures Valid()
      ensures FromTest !in old(snapshots) ==>
                r == Fail(UndefinedPool(FromTest)) && snapshots == old(snapshots) && pending == old(pending) && everTracked == old(everTracked)
      ensures FromTest in old(snapshots) ==>
                var keep := base.ShouldKeepArtifactOfTest(s);
                r == Pass && TestSettled(s, h, keep, keep && shouldTakeAutomaticSnapshots,
                                         old(snapshots), old(pending), old(everTracked), snapshots, pending, everTracked)
    {
      if base.ShouldKeepArtifactOfTest(s) {
        r := TakeAutomaticSnapshot(AfterEachSnapshot, h);
        if r.Pass? {
          r := StartSavingSnapshots(FromTest);
        }
      } else {
        r := StartDiscardingSnapshots(FromTest);
      }
    }

    /** Concludes the run, then flushes the session pool: the decision is now Keep or Discard. */
    method OnAfterAll() returns (r: Outcome<HookError>)
      requires Valid()
      modifies this`snapshots, this`pending, base`context, base`finishedTests, base`warnings
      ensures Valid()
      ensures base.terminated ==> r == Pass && unchanged(this) && base.context == old(base.context)
                                  && base.finishedTests == old(base.finishedTests) && base.warnings == old(base.warnings)
      ensures !base.terminated ==>
                var dec := base.ShouldKeepArtifactOfSession();
                && base.context == old(base.context).(testSummary := None) && base.finishedTests
                && base.warnings == old(base.warnings) + (if base.WarningDue() then [base.disableReason] else [])
                && dec != Deferred
                && FlushOutcome(dec, None, old(snapshots), old(pending), snapshots, pending, r)
    {
      if base.terminated {
        return Pass;
      }
      base.OnAfterAll();
      r := FlushSessionSnapshots();
    }

    /**
     * Registers an artifact created elsewhere into the pool of the current scope.
     * Rejects an event without an artifact. Still live after `OnTerminate`.
     */
    method OnCreateExternalArtifact(e: ExternalArtifactEvent) returns (r: Outcome<HookError>)
      requires Valid()
      modifies this`snapshots, this`everTracked
      ensures Valid()
      ensures e.artifact.None? ==> r == Fail(MissingArtifact) && snapshots == old(snapshots) && everTracked == old(everTracked)
      ensures e.artifact.Some? ==>
                RegisterResult(old(snapshots), old(everTracked), PoolFor(base.context.testSummary), e.name, e.artifact.value,
                               snapshots, everTracked, r)
    {
      if e.artifact.None? {
        return Fail(MissingArtifact);
      }
      r := RegisterSnapshot(e.name, e.artifact.value);
    }

    /** Saves or discards the session pool once the session decision is known; defers otherwise. */
    method FlushSessionSnapshots() returns (r: Outcome<HookError>)
      requires Valid()
      modifies this`snapshots, this`pending
      ensures Valid()
      ensures FlushOutcome(base.ShouldKeepArtifactOfSession(), base.context.testSummary,
                           old(snapshots), old(pending), snapshots, pending, r)
    {
      r := Pass;
      var dec := base.ShouldKeepArtifactOfSession();
      if dec == Keep {
        r := StartSavingSnapshots(FromSession);
      }
      if dec == SessionDecision.Discard {
        r := StartDiscardingSnapshots(FromSession);
      }
    }
  }
}
